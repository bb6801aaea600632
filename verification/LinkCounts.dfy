/** Directories and link counts (xv6-lab-filesystem/sysfile.c:118-284, 517-550; fs.c:571-625): what
    create, link, unlink and symlink keep. up and depth are history variables. */
module LinkCounts {
  import opened Common

  const DIRSIZ := 14

  datatype Kind = Dir | File | Device | Symlink

  /** A directory entry; inum 0 is an empty slot. Names are at most DIRSIZ bytes. */
  datatype Ent = Ent(inum: nat, name: string)

  datatype Inode = Inode(kind: Kind, nlink: nat, ents: seq<Ent>)

  /** The allocated inodes; for each directory, the directory it was created in and its distance
      from the root. */
  datatype Tree = Tree(inodes: map<nat, Inode>, up: map<nat, nat>, depth: map<nat, nat>)

  predicate Linked(s: Tree, d: nat) { d in s.inodes && s.inodes[d].kind.Dir? && s.inodes[d].nlink > 0 }

  /** Entry k of d names inode i and is not the "." entry. */
  predicate Hit(s: Tree, d: nat, k: nat, i: nat) {
    && Linked(s, d) && k < |s.inodes[d].ents|
    && s.inodes[d].ents[k].inum == i && s.inodes[d].ents[k].name != "."
  }

  /** The entries of linked directories that name i. */
  ghost function Names(s: Tree, i: nat): set<(nat, nat)> {
    set d, k | d in s.inodes && 0 <= k < |s.inodes[d].ents| && Hit(s, d, k, i) :: (d, k)
  }

  // ---------------------------------------------------------------- invariant

  /** Entry k >= 2 of directory d. */
  ghost predicate EntOk(s: Tree, root: nat, d: nat, k: nat)
    requires Linked(s, d) && k < |s.inodes[d].ents|
  {
    var x := s.inodes[d].ents[k];
    x.inum != 0 ==>
      && x.inum in s.inodes && x.name != "." && x.name != ".." && |x.name| <= DIRSIZ
      && (s.inodes[x.inum].kind.Dir? ==> Linked(s, x.inum) && x.inum != root && x.inum in s.up && s.up[x.inum] == d)
  }

  /** No two live entries of d share a name, and none of them share a directory. */
  ghost predicate PairOk(s: Tree, d: nat, j: nat, k: nat)
    requires Linked(s, d) && j < |s.inodes[d].ents| && k < |s.inodes[d].ents|
  {
    var (x, y) := (s.inodes[d].ents[j], s.inodes[d].ents[k]);
    x.inum != 0 && y.inum != 0 ==> x.name != y.name && (x.inum == y.inum && j >= 2 && x.inum in s.inodes ==> !s.inodes[x.inum].kind.Dir?)
  }

  ghost predicate DirOk(s: Tree, root: nat, d: nat)
    requires Linked(s, d)
  {
    var ents := s.inodes[d].ents;
    && d in s.up && d in s.depth && Linked(s, s.up[d]) && s.up[d] in s.depth
    && (if d == root then s.up[d] == root else s.depth[s.up[d]] < s.depth[d])
    && |ents| >= 2 && ents[0] == Ent(d, ".") && ents[1] == Ent(s.up[d], "..")
    && (forall k :: 2 <= k < |ents| ==> EntOk(s, root, d, k))
    && (forall j, k :: 0 <= j < k < |ents| ==> PairOk(s, d, j, k))
    && (d != root ==> exists k: nat :: Home(s, d, k))
  }

  /** Entry k of the parent of d names d. */
  ghost predicate Home(s: Tree, d: nat, k: nat) {
    d in s.up && Linked(s, s.up[d]) && 2 <= k < |s.inodes[s.up[d]].ents| && s.inodes[s.up[d]].ents[k].inum == d
  }

  /** isdirempty: nothing from slot 2 on. */
  predicate EmptyDir(x: Inode) { forall k :: 2 <= k < |x.ents| ==> x.ents[k].inum == 0 }

  /** A removed directory has kept "." and ".." and nothing else. */
  predicate Bare(x: Inode) {
    && |x.ents| >= 2 && x.ents[0].name == "." && x.ents[0].inum != 0 && x.ents[1].name == ".." && x.ents[1].inum != 0
    && EmptyDir(x)
  }

  ghost predicate BareOk(s: Tree) {
    forall d :: d in s.inodes && s.inodes[d].kind.Dir? && s.inodes[d].nlink == 0 ==> Bare(s.inodes[d])
  }

  ghost predicate Good(s: Tree, root: nat) {
    && root > 0 && Linked(s, root) && BareOk(s)
    && (forall i :: i in s.inodes ==> i > 0)
    && (forall d {:trigger DirOk(s, root, d)} :: Linked(s, d) ==> DirOk(s, root, d))
    && forall i :: i in s.inodes ==> s.inodes[i].nlink == |Names(s, i)|
  }

  // ---------------------------------------------------------------- the tree

  /** n steps up from d. */
  ghost function Climb(s: Tree, d: nat, n: nat): nat
    decreases n
  {
    if n == 0 || d !in s.up then d else Climb(s, s.up[d], n - 1)
  }

  lemma AtDir(s: Tree, root: nat, d: nat)
    requires Good(s, root) && Linked(s, d)
    ensures DirOk(s, root, d) && root > 0 && Linked(s, root)
  {
    hide DirOk;
  }

  /** From every linked directory, ".." leads to the root. */
  lemma {:induction false} ReachesRoot(s: Tree, root: nat, d: nat) returns (n: nat)
    requires Good(s, root) && Linked(s, d) && d in s.depth
    ensures Climb(s, d, n) == root
    decreases s.depth[d]
  {
    hide Good;
    AtDir(s, root, d);
    if d == root {
      n := 0;
    } else {
      var m := ReachesRoot(s, root, s.up[d]);
      n := m + 1;
    }
  }

  /** Exactly one entry outside the directory itself and its children names a linked directory, and it
      stands in the directory that its ".." names. */
  lemma OneParent(s: Tree, root: nat, d: nat)
    requires Good(s, root) && Linked(s, d) && d != root
    ensures |s.inodes[d].ents| >= 2 && d in s.up && s.inodes[d].ents[1] == Ent(s.up[d], "..") && exists k: nat :: Home(s, d, k)
    ensures forall p, j, q, k :: Hit(s, p, j, d) && Hit(s, q, k, d) && j >= 2 && k >= 2 ==> p == q && j == k
  {
    hide Good;
    AtDir(s, root, d);
    forall p, j, q, k | Hit(s, p, j, d) && Hit(s, q, k, d) && j >= 2 && k >= 2 ensures p == q && j == k {
      OneEntry(s, root, d, p, j, q, k);
    }
  }

  lemma EntryInUp(s: Tree, root: nat, d: nat, p: nat, j: nat)
    requires Good(s, root) && Linked(s, d) && Hit(s, p, j, d) && j >= 2
    ensures d in s.up && p == s.up[d] && d != root
  {
    hide Good, Names;
    GoodEnts(s, root, d);
    AtDir(s, root, p);
    assert EntOk(s, root, p, j);
  }

  lemma OneEntry(s: Tree, root: nat, d: nat, p: nat, j: nat, q: nat, k: nat)
    requires Good(s, root) && Linked(s, d) && Hit(s, p, j, d) && Hit(s, q, k, d) && j >= 2 && k >= 2
    ensures d in s.up && p == q == s.up[d] && j == k
  {
    hide Good, Names, EntOk;
    GoodEnts(s, root, d);
    EntryInUp(s, root, d, p, j);
    EntryInUp(s, root, d, q, k);
    AtDir(s, root, p);
    assert j < k ==> PairOk(s, p, j, k);
    assert k < j ==> PairOk(s, p, k, j);
  }

  // ---------------------------------------------------------------- entries

  function PutEnt(ents: seq<Ent>, k: nat, x: Ent): seq<Ent> { if k < |ents| then ents[k := x] else ents + [x] }

  /** The slot dirlink uses: empty, or one past the end. */
  predicate FreeSlot(ents: seq<Ent>, k: nat) { k <= |ents| && (k < |ents| ==> ents[k].inum == 0) }

  predicate NoName(ents: seq<Ent>, name: string) { forall k :: 0 <= k < |ents| && ents[k].inum != 0 ==> ents[k].name != name }

  /** Names after an entry of a linked directory changed; the directory stays linked. */
  lemma NamesPut(s: Tree, t: Tree, d: nat, k: nat, x: Ent, i: nat)
    requires Linked(s, d) && Linked(t, d) && i > 0 && k <= |s.inodes[d].ents| && t.inodes.Keys == s.inodes.Keys
    requires t.inodes[d].ents == PutEnt(s.inodes[d].ents, k, x)
    requires forall e :: e in s.inodes && e != d ==> t.inodes[e].ents == s.inodes[e].ents && (Linked(t, e) <==> Linked(s, e))
    ensures Names(t, i) == Names(s, i) - {(d, k)} + (if x.inum == i && x.name != "." then {(d, k)} else {})
    ensures (d, k) in Names(s, i) <==> Hit(s, d, k, i)
  {
    forall e, j ensures (e, j) in Names(t, i) <==> (e, j) in Names(s, i) - {(d, k)} + (if x.inum == i && x.name != "." then {(d, k)} else {}) {
      assert e >= 0 && j >= 0 ==> (Hit(t, e, j, i) <==> if (e, j) == (d, k) then x.inum == i && x.name != "." else Hit(s, e, j, i));
    }
  }

  // ---------------------------------------------------------------- one entry changes

  /** Every inode of s keeps its kind, and every directory its being linked, its parent and its depth. */
  ghost predicate SameShape(s: Tree, t: Tree) {
    && (forall d :: d in s.inodes ==> d in t.inodes && t.inodes[d].kind == s.inodes[d].kind)
    && (forall d :: d in s.inodes ==> (Linked(t, d) <==> Linked(s, d)))
    && forall d :: Linked(s, d) && d in s.up && d in s.depth ==> d in t.up && t.up[d] == s.up[d] && d in t.depth && t.depth[d] == s.depth[d]
  }

  /** Slot k of dp now holds x; other directories keep their entries. */
  ghost predicate Put(s: Tree, t: Tree, dp: nat, k: nat, x: Ent) {
    && Linked(s, dp) && SameShape(s, t) && k <= |s.inodes[dp].ents| && t.inodes[dp].ents == PutEnt(s.inodes[dp].ents, k, x)
    && forall d :: d in s.inodes && d != dp ==> t.inodes[d].ents == s.inodes[d].ents
  }

  /** A new entry has a new name and names a file, or the directory that was made for it. */
  ghost predicate Fresh(s: Tree, t: Tree, root: nat, dp: nat, k: nat, x: Ent) {
    && x.inum != 0 && x.inum in t.inodes && x.name != "." && x.name != ".." && |x.name| <= DIRSIZ
    && dp in s.inodes && NoName(s.inodes[dp].ents, x.name) && FreeSlot(s.inodes[dp].ents, k)
    && (t.inodes[x.inum].kind.Dir? ==> x.inum !in s.inodes && Linked(t, x.inum) && x.inum != root && x.inum in t.up && t.up[x.inum] == dp)
  }

  /** The slot is cleared; if it named a directory, that directory is gone from t's linked ones. */
  ghost predicate Clears(s: Tree, dp: nat, k: nat, x: Ent) {
    dp in s.inodes && x.inum == 0 && 2 <= k < |s.inodes[dp].ents| && s.inodes[dp].ents[k].inum in s.inodes
    && !s.inodes[s.inodes[dp].ents[k].inum].kind.Dir?
  }

  lemma EntKept(s: Tree, t: Tree, root: nat, d: nat, k: nat, k': nat)
    requires SameShape(s, t) && Linked(s, d) && d in t.inodes && k < |s.inodes[d].ents| && k' < |t.inodes[d].ents| && t.inodes[d].ents[k'] == s.inodes[d].ents[k]
    requires EntOk(s, root, d, k) && DirOk(s, root, d)
    requires forall e :: Linked(s, e) ==> e in s.up && e in s.depth
    ensures EntOk(t, root, d, k')
  {
    hide DirOk;
    assert Linked(t, d);
  }

  lemma HomeKept(s: Tree, t: Tree, root: nat, dp: nat, k: nat, x: Ent, d: nat, j: nat)
    requires Put(s, t, dp, k, x) && Home(s, d, j) && Linked(s, d) && d in s.depth
    requires j == k && s.up[d] == dp ==> k == |s.inodes[dp].ents|
    ensures Home(t, d, j)
  {
    assert d in t.up && Linked(t, t.up[d]);
  }

  lemma OtherDir(s: Tree, t: Tree, root: nat, dp: nat, k: nat, x: Ent, d: nat)
    requires Good(s, root) && Put(s, t, dp, k, x) && (Fresh(s, t, root, dp, k, x) || Clears(s, dp, k, x)) && Linked(s, d) && d != dp
    ensures Linked(t, d) && DirOk(t, root, d)
  {
    hide Good, Names;
    AllUp(s, root);
    GoodEnts(s, root, dp);
    AtDir(s, root, d);
    AtDir(s, root, dp);
    if d != root {
      var j: nat :| Home(s, d, j);
      HomeSlot(s, root, dp, k, x, d, j, t);
      HomeKept(s, t, root, dp, k, x, d, j);
    }
    DirParts(s, t, root, d);
  }

  lemma AllUp(s: Tree, root: nat)
    requires Good(s, root)
    ensures forall e :: Linked(s, e) ==> e in s.up && e in s.depth
  {
    hide Good;
    forall e | Linked(s, e) ensures e in s.up && e in s.depth { AtDir(s, root, e); }
  }

  lemma GoodEnts(s: Tree, root: nat, d: nat)
    requires Good(s, root) && Linked(s, d)
    ensures 0 !in s.inodes && forall i :: i in s.inodes ==> s.inodes[i].nlink == |Names(s, i)|
  {
    hide DirOk, Names;
  }

  /** The changed slot is not the one that names a directory. */
  lemma HomeSlot(s: Tree, root: nat, dp: nat, k: nat, x: Ent, d: nat, j: nat, t: Tree)
    requires Linked(s, dp) && Home(s, d, j) && Linked(s, d) && d > 0 && 0 !in s.inodes && (Fresh(s, t, root, dp, k, x) || Clears(s, dp, k, x))
    ensures j == k && s.up[d] == dp ==> k == |s.inodes[dp].ents|
  {
  }

  /** A directory whose entries did not change. */
  lemma DirParts(s: Tree, t: Tree, root: nat, d: nat)
    requires SameShape(s, t) && Linked(s, d) && DirOk(s, root, d) && d in t.inodes && t.inodes[d].ents == s.inodes[d].ents
    requires forall e :: Linked(s, e) ==> e in s.up && e in s.depth
    requires d != root ==> exists j: nat :: Home(t, d, j)
    requires 0 !in s.inodes
    ensures Linked(t, d) && DirOk(t, root, d)
  {
    assert Linked(t, d) && Linked(t, t.up[d]);
    var ents := t.inodes[d].ents;
    forall k | 2 <= k < |ents| ensures EntOk(t, root, d, k) { assert EntOk(s, root, d, k); EntKept(s, t, root, d, k, k); }
    forall j, k | 0 <= j < k < |ents| ensures PairOk(t, d, j, k) { assert PairOk(s, d, j, k); PairKept(s, t, root, d, j, k); }
  }

  lemma PairKept(s: Tree, t: Tree, root: nat, d: nat, j: nat, k: nat)
    requires SameShape(s, t) && Linked(s, d) && Linked(t, d) && j < k < |s.inodes[d].ents| && k < |t.inodes[d].ents| && PairOk(s, d, j, k)
    requires t.inodes[d].ents[j] == s.inodes[d].ents[j] && t.inodes[d].ents[k] == s.inodes[d].ents[k]
    requires j >= 2 ==> EntOk(s, root, d, j)
    ensures PairOk(t, d, j, k)
  {
  }

  lemma ThisDir(s: Tree, t: Tree, root: nat, dp: nat, k: nat, x: Ent)
    requires Good(s, root) && Put(s, t, dp, k, x) && (Fresh(s, t, root, dp, k, x) || Clears(s, dp, k, x))
    ensures Linked(t, dp) && DirOk(t, root, dp)
  {
    hide Good, Names;
    AllUp(s, root);
    GoodEnts(s, root, dp);
    AtDir(s, root, dp);
    assert Linked(t, dp) && Linked(t, t.up[dp]);
    var old_, ents := s.inodes[dp].ents, t.inodes[dp].ents;
    assert k >= 2;
    forall j | 2 <= j < |ents| ensures EntOk(t, root, dp, j) {
      if j != k { assert EntOk(s, root, dp, j); EntKept(s, t, root, dp, j, j); }
    }
    forall i, j | 0 <= i < j < |ents| ensures PairOk(t, dp, i, j) { ThisPair(s, t, root, dp, k, x, i, j); }
    if dp != root {
      var j: nat :| Home(s, dp, j);
      HomeSlot(s, root, dp, k, x, dp, j, t);
      HomeKept(s, t, root, dp, k, x, dp, j);
    }
  }

  lemma ThisPair(s: Tree, t: Tree, root: nat, dp: nat, k: nat, x: Ent, i: nat, j: nat)
    requires Put(s, t, dp, k, x) && (Fresh(s, t, root, dp, k, x) || Clears(s, dp, k, x)) && Linked(t, dp) && DirOk(s, root, dp) && 2 <= k && 0 !in s.inodes
    requires i < j < |t.inodes[dp].ents|
    ensures PairOk(t, dp, i, j)
  {
    var ents := s.inodes[dp].ents;
    if i != k && j != k {
      assert PairOk(s, dp, i, j) && (i >= 2 ==> EntOk(s, root, dp, i));
      PairKept(s, t, root, dp, i, j);
    } else if x.inum != 0 {
      var o := if i == k then j else i;
      assert o < |ents| && (o >= 2 ==> EntOk(s, root, dp, o));
    }
  }

  // ---------------------------------------------------------------- the operations on values

  function SetNode(s: Tree, i: nat, x: Inode): Tree { s.(inodes := s.inodes[i := x]) }

  /** dirlink(dp, name, i) into slot k. */
  function WithEnt(s: Tree, dp: nat, k: nat, x: Ent): Tree
    requires dp in s.inodes
  {
    SetNode(s, dp, s.inodes[dp].(ents := PutEnt(s.inodes[dp].ents, k, x)))
  }

  /** A new inode i with one link, for the file at slot k of dp. */
  function NewFile(s: Tree, dp: nat, k: nat, name: string, i: nat, kind: Kind): Tree
    requires dp in s.inodes && dp != i
  {
    SetNode(WithEnt(s, dp, k, Ent(i, name)), i, Inode(kind, 1, []))
  }

  function DepthOf(s: Tree, d: nat): nat { if d in s.depth then s.depth[d] else 0 }

  /** A new directory: "." and "..", one more link for the parent. */
  function NewDir(s: Tree, dp: nat, k: nat, name: string, i: nat): Tree
    requires dp in s.inodes && dp != i
  {
    var t := SetNode(WithEnt(s, dp, k, Ent(i, name)), i, Inode(Dir, 1, [Ent(i, "."), Ent(dp, "..")]));
    SetNode(t, dp, t.inodes[dp].(nlink := t.inodes[dp].nlink + 1)).(up := s.up[i := dp], depth := s.depth[i := DepthOf(s, dp) + 1])
  }

  function NewLink(s: Tree, dp: nat, k: nat, name: string, i: nat): Tree
    requires dp in s.inodes && i in s.inodes && i != dp
  {
    SetNode(WithEnt(s, dp, k, Ent(i, name)), i, s.inodes[i].(nlink := s.inodes[i].nlink + 1))
  }

  /** Clear slot k of dp and take a link from i; from dp as well if i is a directory. */
  function Removed(s: Tree, dp: nat, k: nat, i: nat): Tree
    requires dp in s.inodes && i in s.inodes && i != dp
  {
    var t := SetNode(WithEnt(s, dp, k, Ent(0, "")), i, s.inodes[i].(nlink := Minus1(s.inodes[i].nlink)));
    if s.inodes[i].kind.Dir? then SetNode(t, dp, t.inodes[dp].(nlink := Minus1(s.inodes[dp].nlink))) else t
  }

  ghost predicate CanAdd(s: Tree, root: nat, dp: nat, k: nat, name: string) {
    && Good(s, root) && Linked(s, dp) && NoName(s.inodes[dp].ents, name) && FreeSlot(s.inodes[dp].ents, k)
    && name != "." && name != ".." && |name| <= DIRSIZ
  }

  lemma NewFileKeeps(s: Tree, root: nat, dp: nat, k: nat, name: string, i: nat, kind: Kind)
    requires CanAdd(s, root, dp, k, name) && i > 0 && i !in s.inodes && !kind.Dir?
    ensures Good(NewFile(s, dp, k, name, i, kind), root)
  {
    hide Good, Names, DirOk;
    var t, x := NewFile(s, dp, k, name, i, kind), Ent(i, name);
    AtDir(s, root, dp);
    GoodEnts(s, root, dp);
    assert Put(s, t, dp, k, x) && Fresh(s, t, root, dp, k, x);
    ThisDir(s, t, root, dp, k, x);
    forall d | Linked(t, d) ensures DirOk(t, root, d) { if d != dp { OtherDir(s, t, root, dp, k, x, d); } }
    forall j | j in t.inodes ensures t.inodes[j].nlink == |Names(t, j)| { CountPut(s, t, root, dp, k, x, i, j); }
    BareKept(s, root, t);
    GoodOf(t, root);
  }

  lemma BareKept(s: Tree, root: nat, t: Tree)
    requires Good(s, root)
    requires forall d :: d in t.inodes && t.inodes[d].kind.Dir? && t.inodes[d].nlink == 0 ==>
      Bare(t.inodes[d]) || (d in s.inodes && s.inodes[d] == t.inodes[d])
    ensures BareOk(t)
  {
    hide DirOk, Names, Bare;
  }

  lemma GoodOf(t: Tree, root: nat)
    requires root > 0 && Linked(t, root) && 0 !in t.inodes && BareOk(t)
    requires forall d :: Linked(t, d) ==> DirOk(t, root, d)
    requires forall i :: i in t.inodes ==> t.inodes[i].nlink == |Names(t, i)|
    ensures Good(t, root)
  {
    hide DirOk, Names;
  }

  /** One more entry for i; i is new with one link, or has one link more. */
  lemma CountPut(s: Tree, t: Tree, root: nat, dp: nat, k: nat, x: Ent, i: nat, j: nat)
    requires Good(s, root) && Put(s, t, dp, k, x) && Fresh(s, t, root, dp, k, x) && x.inum == i && j in t.inodes && i != dp
    requires t.inodes.Keys == s.inodes.Keys + {i} && !t.inodes[i].kind.Dir? && (i !in s.inodes ==> t.inodes[i].nlink == 1)
    requires i in s.inodes ==> t.inodes[i].nlink == s.inodes[i].nlink + 1
    requires forall e :: e in s.inodes && e != i ==> t.inodes[e].nlink == s.inodes[e].nlink
    ensures t.inodes[j].nlink == |Names(t, j)|
  {
    hide Good, DirOk, Names;
    GoodEnts(s, root, dp);
    NamesPutNew(s, t, dp, k, x, i, j);
    hide Put;
    if j !in s.inodes { NoNames(s, root, j); }
    assert |Names(s, j) + {(dp, k)}| == |Names(s, j)| + 1;
  }

  /** Nothing names an inode that is not allocated. */
  lemma NoNames(s: Tree, root: nat, i: nat)
    requires Good(s, root) && i !in s.inodes && i > 0
    ensures Names(s, i) == {}
  {
    hide Good;
    forall d, k | Hit(s, d, k, i) ensures false { HitExists(s, root, d, k, i); }
  }

  lemma HitExists(s: Tree, root: nat, d: nat, k: nat, i: nat)
    requires Good(s, root) && Hit(s, d, k, i) && i > 0
    ensures i in s.inodes
  {
    hide Good;
    AtDir(s, root, d);
    assert k >= 2 ==> EntOk(s, root, d, k);
  }

  lemma NamesPutNew(s: Tree, t: Tree, dp: nat, k: nat, x: Ent, i: nat, j: nat)
    requires Put(s, t, dp, k, x) && FreeSlot(s.inodes[dp].ents, k) && x.inum == i && x.name != "." && j > 0 && 0 !in s.inodes && i != dp
    requires t.inodes.Keys == s.inodes.Keys + {i} && i in t.inodes && !t.inodes[i].kind.Dir?
    ensures Names(t, j) == Names(s, j) + (if j == i then {(dp, k)} else {}) && (dp, k) !in Names(s, j)
  {
    forall e, m ensures (e, m) in Names(t, j) <==> (e, m) in Names(s, j) + (if j == i then {(dp, k)} else {}) {
      assert e >= 0 && m >= 0 ==> (Hit(t, e, m, j) <==> if (e, m) == (dp, k) then j == i else Hit(s, e, m, j));
    }
  }

  lemma NewLinkKeeps(s: Tree, root: nat, dp: nat, k: nat, name: string, i: nat)
    requires CanAdd(s, root, dp, k, name) && i in s.inodes && !s.inodes[i].kind.Dir?
    ensures Good(NewLink(s, dp, k, name, i), root)
  {
    hide Good, Names, DirOk;
    var t, x := NewLink(s, dp, k, name, i), Ent(i, name);
    AtDir(s, root, dp);
    GoodEnts(s, root, dp);
    assert Put(s, t, dp, k, x) && Fresh(s, t, root, dp, k, x);
    ThisDir(s, t, root, dp, k, x);
    forall d | Linked(t, d) ensures DirOk(t, root, d) { if d != dp { OtherDir(s, t, root, dp, k, x, d); } }
    forall j | j in t.inodes ensures t.inodes[j].nlink == |Names(t, j)| { CountPut(s, t, root, dp, k, x, i, j); }
    BareKept(s, root, t);
    GoodOf(t, root);
  }

  // ---------------------------------------------------------------- a new directory

  lemma NewDirKeeps(s: Tree, root: nat, dp: nat, k: nat, name: string, i: nat)
    requires CanAdd(s, root, dp, k, name) && i > 0 && i !in s.inodes && dp != i
    ensures Good(NewDir(s, dp, k, name, i), root)
  {
    hide Good, Names;
    var t, x := NewDir(s, dp, k, name, i), Ent(i, name);
    hide DirOk, Put, Fresh;
    NewDirPut(s, root, dp, k, name, i);
    NewDirItself(s, root, dp, k, name, i);
    ThisDir(s, t, root, dp, k, x);
    forall d | Linked(t, d) ensures DirOk(t, root, d) { if d != dp && d != i { OtherDir(s, t, root, dp, k, x, d); } }
    forall j | j in t.inodes ensures t.inodes[j].nlink == |Names(t, j)| { CountDir(s, root, dp, k, name, i, j); }
    NewDirBare(s, root, dp, k, name, i);
    GoodOf(t, root);
  }

  lemma NewDirPut(s: Tree, root: nat, dp: nat, k: nat, name: string, i: nat)
    requires CanAdd(s, root, dp, k, name) && i > 0 && i !in s.inodes && dp != i
    ensures var t := NewDir(s, dp, k, name, i);
      && Put(s, t, dp, k, Ent(i, name)) && Fresh(s, t, root, dp, k, Ent(i, name)) && root > 0 && Linked(t, root) && 0 !in t.inodes
      && t.inodes.Keys == s.inodes.Keys + {i} && forall d :: Linked(t, d) && d != i ==> Linked(s, d)
  {
    hide Good, Names, DirOk;
    AtDir(s, root, dp);
    GoodEnts(s, root, dp);
    var t := NewDir(s, dp, k, name, i);
    NewDirNodes(s, dp, k, name, i);
    hide NewDir;
    assert SameShape(s, t);
  }

  lemma NewDirNodes(s: Tree, dp: nat, k: nat, name: string, i: nat)
    requires dp in s.inodes && dp != i && i !in s.inodes && i > 0
    ensures var t := NewDir(s, dp, k, name, i);
      && t.inodes.Keys == s.inodes.Keys + {i} && (forall d :: d in s.inodes && d != dp ==> t.inodes[d] == s.inodes[d])
      && t.inodes[dp] == s.inodes[dp].(nlink := s.inodes[dp].nlink + 1, ents := PutEnt(s.inodes[dp].ents, k, Ent(i, name)))
      && t.inodes[i] == Inode(Dir, 1, [Ent(i, "."), Ent(dp, "..")])
      && t.up == s.up[i := dp] && t.depth == s.depth[i := DepthOf(s, dp) + 1]
  {
  }

  lemma NewDirBare(s: Tree, root: nat, dp: nat, k: nat, name: string, i: nat)
    requires CanAdd(s, root, dp, k, name) && i > 0 && i !in s.inodes && dp != i
    ensures BareOk(NewDir(s, dp, k, name, i))
  {
    hide Good, Names, DirOk, Bare;
    NewDirNodes(s, dp, k, name, i);
    hide NewDir;
    BareKept(s, root, NewDir(s, dp, k, name, i));
  }

  lemma NewDirItself(s: Tree, root: nat, dp: nat, k: nat, name: string, i: nat)
    requires CanAdd(s, root, dp, k, name) && i > 0 && i !in s.inodes && dp != i
    ensures Linked(NewDir(s, dp, k, name, i), i) && DirOk(NewDir(s, dp, k, name, i), root, i)
  {
    hide Good, Names;
    var t := NewDir(s, dp, k, name, i);
    AtDir(s, root, dp);
    GoodEnts(s, root, dp);
    assert s.inodes[dp].ents[0].inum != 0 && s.inodes[dp].ents[1].inum != 0;
    assert Home(t, i, k);
    assert Linked(t, i) && Linked(t, dp);
  }

  lemma CountDir(s: Tree, root: nat, dp: nat, k: nat, name: string, i: nat, j: nat)
    requires CanAdd(s, root, dp, k, name) && i > 0 && i !in s.inodes && dp != i
    requires j in NewDir(s, dp, k, name, i).inodes
    ensures NewDir(s, dp, k, name, i).inodes[j].nlink == |Names(NewDir(s, dp, k, name, i), j)|
  {
    hide Good, Names, DirOk;
    var t := NewDir(s, dp, k, name, i);
    GoodEnts(s, root, dp);
    NamesNewDir(s, root, dp, k, name, i, j);
    if j == i { NoNames(s, root, j); }
    assert |Names(s, j) + {(dp, k)}| == |Names(s, j)| + 1;
    assert |Names(s, j) + {(i, 1)}| == |Names(s, j)| + 1;
  }

  /** Two new entries count: the one in the parent, for the directory, and its "..", for the parent. */
  lemma NamesNewDir(s: Tree, root: nat, dp: nat, k: nat, name: string, i: nat, j: nat)
    requires CanAdd(s, root, dp, k, name) && i > 0 && i !in s.inodes && dp != i && 0 !in s.inodes && j > 0
    ensures var t := NewDir(s, dp, k, name, i);
      && Names(t, j) == Names(s, j) + (if j == i then {(dp, k)} else if j == dp then {(i, 1)} else {})
      && (dp, k) !in Names(s, j) && (i, 1) !in Names(s, j)
  {
    hide Good;
    var t := NewDir(s, dp, k, name, i);
    forall e, m ensures (e, m) in Names(t, j) <==> (e, m) in Names(s, j) + (if j == i then {(dp, k)} else if j == dp then {(i, 1)} else {}) {
      if e >= 0 && m >= 0 { HitNewDir(s, root, dp, k, name, i, j, e, m); }
    }
  }

  lemma HitNewDir(s: Tree, root: nat, dp: nat, k: nat, name: string, i: nat, j: nat, e: nat, m: nat)
    requires CanAdd(s, root, dp, k, name) && i > 0 && i !in s.inodes && dp != i && j > 0
    ensures Hit(NewDir(s, dp, k, name, i), e, m, j) <==>
      if (e, m) == (dp, k) then j == i else if (e, m) == (i, 1) then j == dp else Hit(s, e, m, j)
  {
    hide Good;
  }

  // ---------------------------------------------------------------- unlink

  ghost predicate CanRemove(s: Tree, root: nat, dp: nat, k: nat, i: nat) {
    Good(s, root) && Holds(s, dp, k, i)
  }

  /** Slot k of the linked directory dp names the inode i. */
  predicate Holds(s: Tree, dp: nat, k: nat, i: nat) {
    Linked(s, dp) && 2 <= k < |s.inodes[dp].ents| && s.inodes[dp].ents[k].inum == i && i in s.inodes && i != dp
  }

  lemma RemoveFileKeeps(s: Tree, root: nat, dp: nat, k: nat, i: nat)
    requires CanRemove(s, root, dp, k, i) && !s.inodes[i].kind.Dir?
    ensures s.inodes[i].nlink >= 1 && Good(Removed(s, dp, k, i), root)
  {
    hide Good, Names, DirOk;
    var t, x := Removed(s, dp, k, i), Ent(0, "");
    AtDir(s, root, dp);
    GoodEnts(s, root, dp);
    assert Put(s, t, dp, k, x) && Clears(s, dp, k, x);
    ThisDir(s, t, root, dp, k, x);
    forall d | Linked(t, d) ensures DirOk(t, root, d) { if d != dp { OtherDir(s, t, root, dp, k, x, d); } }
    HitAt(s, root, dp, k, i);
    hide Put, Clears;
    forall j | j in t.inodes ensures t.inodes[j].nlink == |Names(t, j)| { CountRemoved(s, root, dp, k, i, j); }
    RemovedBare(s, root, dp, k, i);
    GoodOf(t, root);
  }

  lemma CountRemoved(s: Tree, root: nat, dp: nat, k: nat, i: nat, j: nat)
    requires CanRemove(s, root, dp, k, i) && !s.inodes[i].kind.Dir? && j in s.inodes
    ensures Removed(s, dp, k, i).inodes[j].nlink == |Names(Removed(s, dp, k, i), j)|
  {
    hide Good, Names;
    GoodEnts(s, root, dp);
    HitAt(s, root, dp, k, i);
    NamesPut(s, Removed(s, dp, k, i), dp, k, Ent(0, ""), j);
    var n := Names(s, j);
    assert (dp, k) in n ==> |n - {(dp, k)}| == |n| - 1;
    assert (dp, k) !in n ==> n - {(dp, k)} == n;
  }

  lemma HitAt(s: Tree, root: nat, dp: nat, k: nat, i: nat)
    requires CanRemove(s, root, dp, k, i)
    ensures Hit(s, dp, k, i) && (dp, k) in Names(s, i) && s.inodes[i].nlink >= 1
  {
    hide Good;
    GoodEnts(s, root, dp);
    AtDir(s, root, dp);
    assert EntOk(s, root, dp, k);
    assert (dp, k) in Names(s, i);
  }

  /** An empty directory has one link: its entry in the parent. */
  lemma EmptyDirLinks(s: Tree, root: nat, dp: nat, k: nat, i: nat)
    requires CanRemove(s, root, dp, k, i) && s.inodes[i].kind.Dir? && EmptyDir(s.inodes[i])
    ensures Linked(s, i) && i in s.up && s.up[i] == dp && i != root && s.inodes[i].nlink == 1
    ensures forall d: nat, m: nat :: Hit(s, d, m, i) ==> (d, m) == (dp, k)
    ensures |s.inodes[i].ents| >= 2 && s.inodes[i].ents[0] == Ent(i, ".") && s.inodes[i].ents[1] == Ent(dp, "..")
    ensures forall c :: Linked(s, c) && c in s.up ==> s.up[c] != i
  {
    hide Good, Names, Hit, EntOk, PairOk, EmptyDir;
    HitAt(s, root, dp, k, i);
    GoodEnts(s, root, dp);
    EntryInUp(s, root, i, dp, k);
    AtDir(s, root, i);
    hide DirOk;
    forall c | Linked(s, c) && c in s.up ensures s.up[c] != i { NoChild(s, root, i, c); }
    forall d: nat, m: nat | Hit(s, d, m, i) ensures (d, m) == (dp, k) {
      if m >= 2 { OneEntry(s, root, i, dp, k, d, m); } else { DotDot(s, root, d, m, i); }
    }
    OnlyName(s, i, dp, k);
  }

  lemma OnlyName(s: Tree, i: nat, dp: nat, k: nat)
    requires Hit(s, dp, k, i) && forall d: nat, m: nat :: Hit(s, d, m, i) ==> (d, m) == (dp, k)
    ensures Names(s, i) == {(dp, k)}
  {
  }

  lemma NoChild(s: Tree, root: nat, i: nat, c: nat)
    requires Good(s, root) && Linked(s, i) && EmptyDir(s.inodes[i]) && Linked(s, c) && c in s.up && i != root
    ensures s.up[c] != i
  {
    hide Good, Names;
    GoodEnts(s, root, c);
    AtDir(s, root, c);
  }

  lemma DotDot(s: Tree, root: nat, d: nat, m: nat, i: nat)
    requires Good(s, root) && Hit(s, d, m, i) && m < 2
    ensures m == 1 && Linked(s, d) && d in s.up && s.up[d] == i
  {
    hide Good, Names;
    AtDir(s, root, d);
  }

  /** The parent of a directory keeps a link of its own when the directory goes. */
  lemma ParentStays(s: Tree, root: nat, dp: nat, k: nat, i: nat)
    requires CanRemove(s, root, dp, k, i) && s.inodes[i].kind.Dir? && EmptyDir(s.inodes[i])
    ensures s.inodes[dp].nlink >= 2 && (i, 1) in Names(s, dp)
  {
    hide Good, EntOk, PairOk, EmptyDir, Names, Hit, DirOk;
    EmptyDirLinks(s, root, dp, k, i);
    GoodEnts(s, root, dp);
    var p, j := OwnName(s, root, dp);
    HitIn(s, i, 1, dp);
    HitIn(s, p, j, dp);
    TwoIn(Names(s, dp), (i, 1), (p, j));
  }

  lemma HitIn(s: Tree, d: nat, k: nat, i: nat)
    requires Hit(s, d, k, i) || (Linked(s, d) && k < |s.inodes[d].ents| && s.inodes[d].ents[k] == Ent(i, ".."))
    ensures (d, k) in Names(s, i)
  {
    assert Hit(s, d, k, i);
  }

  /** A linked directory is named by its parent, the root by its own "..". */
  lemma OwnName(s: Tree, root: nat, d: nat) returns (p: nat, j: nat)
    requires Good(s, root) && Linked(s, d)
    ensures Hit(s, p, j, d) && ((p == d == root && j == 1) || j >= 2)
  {
    hide Good, EntOk, PairOk, Names;
    AtDir(s, root, d);
    if d == root { p, j := d, 1; }
    else {
      var k: nat :| Home(s, d, k);
      HomeHit(s, root, d, k);
      p, j := s.up[d], k;
    }
  }

  lemma HomeHit(s: Tree, root: nat, d: nat, j: nat)
    requires Good(s, root) && Linked(s, d) && Home(s, d, j)
    ensures Hit(s, s.up[d], j, d)
  {
    hide Good, Names;
    GoodEnts(s, root, d);
    AtDir(s, root, s.up[d]);
    assert EntOk(s, root, s.up[d], j);
  }

  lemma TwoIn<T>(a: set<T>, x: T, y: T)
    requires x in a && y in a && x != y
    ensures |a| >= 2
  {
    assert {x, y} <= a && |a - {x, y}| + 2 == |a|;
  }

  lemma RemovedBare(s: Tree, root: nat, dp: nat, k: nat, i: nat)
    requires CanRemove(s, root, dp, k, i) && (s.inodes[i].kind.Dir? ==> EmptyDir(s.inodes[i]))
    ensures BareOk(Removed(s, dp, k, i))
  {
    hide Good, Names, DirOk, EmptyDir, Hit;
    GoodEnts(s, root, dp);
    if s.inodes[i].kind.Dir? {
      EmptyDirLinks(s, root, dp, k, i);
      ParentStays(s, root, dp, k, i);
      BareDir(s.inodes[i], i, dp);
      BareNode(s.inodes[i], Removed(s, dp, k, i).inodes[i]);
    }
    hide Bare;
    BareKept(s, root, Removed(s, dp, k, i));
  }

  lemma BareDir(x: Inode, i: nat, dp: nat)
    requires |x.ents| >= 2 && x.ents[0] == Ent(i, ".") && x.ents[1] == Ent(dp, "..") && i > 0 && dp > 0 && EmptyDir(x)
    ensures Bare(x)
  {
  }

  lemma BareNode(x: Inode, y: Inode)
    requires Bare(x) && y.ents == x.ents
    ensures Bare(y)
  {
  }

  lemma RemoveDirKeeps(s: Tree, root: nat, dp: nat, k: nat, i: nat)
    requires CanRemove(s, root, dp, k, i) && s.inodes[i].kind.Dir? && EmptyDir(s.inodes[i])
    ensures s.inodes[i].nlink == 1 && Good(Removed(s, dp, k, i), root)
  {
    hide Good, Names, DirOk, EmptyDir, Hit;
    var t := Removed(s, dp, k, i);
    EmptyDirLinks(s, root, dp, k, i);
    ParentStays(s, root, dp, k, i);
    GoodEnts(s, root, dp);
    AtDir(s, root, dp);
    forall d | Linked(t, d) ensures DirOk(t, root, d) { RemainsOk(s, root, dp, k, i, d); }
    forall j | j in t.inodes ensures t.inodes[j].nlink == |Names(t, j)| { CountDirRemoved(s, root, dp, k, i, j); }
    RemovedBare(s, root, dp, k, i);
    GoodOf(t, root);
  }

  lemma RemainsOk(s: Tree, root: nat, dp: nat, k: nat, i: nat, d: nat)
    requires CanRemove(s, root, dp, k, i) && s.inodes[i].kind.Dir? && EmptyDir(s.inodes[i])
    requires Linked(Removed(s, dp, k, i), d)
    ensures DirOk(Removed(s, dp, k, i), root, d)
  {
    hide Good, Names, EntOk, PairOk, EmptyDir, Hit;
    var t := Removed(s, dp, k, i);
    EmptyDirLinks(s, root, dp, k, i);
    ParentStays(s, root, dp, k, i);
    assert Linked(s, d) && d != i;
    AtDir(s, root, d);
    var ents := t.inodes[d].ents;
    forall m | 2 <= m < |ents| ensures EntOk(t, root, d, m) { assert EntOk(s, root, d, m); RemainsEnt(s, root, dp, k, i, d, m); }
    forall j, m | 0 <= j < m < |ents| ensures PairOk(t, d, j, m) { assert PairOk(s, d, j, m); RemainsPair(s, root, dp, k, i, d, j, m); }
    if d != root {
      var j: nat :| Home(s, d, j);
      assert (s.up[d], j) != (dp, k);
      assert Home(t, d, j);
    }
  }

  lemma RemainsEnt(s: Tree, root: nat, dp: nat, k: nat, i: nat, d: nat, m: nat)
    requires Holds(s, dp, k, i) && s.inodes[i].kind.Dir? && s.inodes[dp].nlink >= 2 && s.inodes[i].nlink == 1
    requires forall d: nat, m: nat :: Hit(s, d, m, i) ==> (d, m) == (dp, k)
    requires Linked(s, d) && d != i && 2 <= m < |s.inodes[d].ents| && EntOk(s, root, d, m)
    ensures Linked(Removed(s, dp, k, i), d) && EntOk(Removed(s, dp, k, i), root, d, m)
  {
    hide Good, Names;
    assert s.inodes[d].ents[m].inum == i && s.inodes[d].ents[m].inum != 0 ==> Hit(s, d, m, i);
  }

  lemma RemainsPair(s: Tree, root: nat, dp: nat, k: nat, i: nat, d: nat, j: nat, m: nat)
    requires Holds(s, dp, k, i) && s.inodes[i].kind.Dir? && s.inodes[dp].nlink >= 2
    requires Linked(s, d) && d != i && j < m < |s.inodes[d].ents| && PairOk(s, d, j, m)
    ensures Linked(Removed(s, dp, k, i), d) && PairOk(Removed(s, dp, k, i), d, j, m)
  {
    hide Good, Names;
  }

  lemma CountDirRemoved(s: Tree, root: nat, dp: nat, k: nat, i: nat, j: nat)
    requires CanRemove(s, root, dp, k, i) && s.inodes[i].kind.Dir? && EmptyDir(s.inodes[i]) && j in s.inodes
    ensures Removed(s, dp, k, i).inodes[j].nlink == |Names(Removed(s, dp, k, i), j)|
  {
    hide Good, Names, Hit;
    GoodEnts(s, root, dp);
    EmptyDirLinks(s, root, dp, k, i);
    ParentStays(s, root, dp, k, i);
    HitAt(s, root, dp, k, i);
    OnlyName(s, i, dp, k);
    NamesDirRemoved(s, root, dp, k, i, j);
    hide EmptyDir;
    var n := Names(s, j);
    assert j == dp ==> |n - {(i, 1)}| == |n| - 1;
    assert j == i ==> n - {(dp, k)} == {};
  }

  lemma NamesDirRemoved(s: Tree, root: nat, dp: nat, k: nat, i: nat, j: nat)
    requires Holds(s, dp, k, i) && s.inodes[i].kind.Dir? && EmptyDir(s.inodes[i]) && j > 0 && s.inodes[dp].nlink >= 2 && s.inodes[i].nlink == 1
    requires |s.inodes[i].ents| >= 2 && s.inodes[i].ents[0] == Ent(i, ".") && s.inodes[i].ents[1] == Ent(dp, "..") && Hit(s, dp, k, i)
    ensures Names(Removed(s, dp, k, i), j) == Names(s, j) - (if j == i then {(dp, k)} else if j == dp then {(i, 1)} else {})
  {
    hide Good;
    var t := Removed(s, dp, k, i);
    forall e, m ensures (e, m) in Names(t, j) <==> (e, m) in Names(s, j) - (if j == i then {(dp, k)} else if j == dp then {(i, 1)} else {}) {
      if e >= 0 && m >= 0 { HitDirRemoved(s, root, dp, k, i, j, e, m); }
    }
  }

  lemma HitDirRemoved(s: Tree, root: nat, dp: nat, k: nat, i: nat, j: nat, e: nat, m: nat)
    requires Holds(s, dp, k, i) && s.inodes[i].kind.Dir? && EmptyDir(s.inodes[i]) && j > 0 && s.inodes[dp].nlink >= 2 && s.inodes[i].nlink == 1
    requires |s.inodes[i].ents| >= 2 && s.inodes[i].ents[0] == Ent(i, ".") && s.inodes[i].ents[1] == Ent(dp, "..") && Hit(s, dp, k, i)
    ensures Hit(Removed(s, dp, k, i), e, m, j) <==> Hit(s, e, m, j) && !(j == i && (e, m) == (dp, k)) && !(j == dp && (e, m) == (i, 1))
  {
    hide Good;
  }

  /** The last iput of an inode without links frees it. */
  lemma ReapKeeps(s: Tree, root: nat, i: nat)
    requires Good(s, root) && i in s.inodes && s.inodes[i].nlink == 0
    ensures Good(s.(inodes := s.inodes - {i}), root)
  {
    hide Good, Names, DirOk;
    var t := s.(inodes := s.inodes - {i});
    RootLinked(s, root);
    AtDir(s, root, root);
    GoodEnts(s, root, root);
    UnnamedHits(s, i);
    forall d | Linked(t, d) ensures DirOk(t, root, d) { assert Linked(s, d); AtDir(s, root, d); ReapDir(s, root, i, d); }
    forall j | j in t.inodes ensures t.inodes[j].nlink == |Names(t, j)| { NamesReaped(s, i, j); }
    BareKept(s, root, t);
    GoodOf(t, root);
  }

  lemma RootLinked(s: Tree, root: nat)
    requires Good(s, root)
    ensures Linked(s, root)
  {
    hide DirOk;
  }

  lemma UnnamedHits(s: Tree, i: nat)
    requires |Names(s, i)| == 0
    ensures forall d: nat, k: nat :: !Hit(s, d, k, i)
  {
    forall d: nat, k: nat ensures !Hit(s, d, k, i) { assert Hit(s, d, k, i) ==> (d, k) in Names(s, i); }
  }

  lemma ReapDir(s: Tree, root: nat, i: nat, d: nat)
    requires Linked(s, d) && DirOk(s, root, d) && i in s.inodes && s.inodes[i].nlink == 0 && 0 !in s.inodes
    requires forall d: nat, k: nat :: !Hit(s, d, k, i)
    ensures Linked(s.(inodes := s.inodes - {i}), d) && DirOk(s.(inodes := s.inodes - {i}), root, d)
  {
    var t := s.(inodes := s.inodes - {i});
    hide Names;
    var ents := t.inodes[d].ents;
    forall k | 2 <= k < |ents| ensures EntOk(t, root, d, k) { assert EntOk(s, root, d, k); assert !Hit(s, d, k, i); }
    forall j, k | 0 <= j < k < |ents| ensures PairOk(t, d, j, k) { assert PairOk(s, d, j, k); }
    if d != root {
      var j: nat :| Home(s, d, j);
      assert Home(t, d, j);
    }
  }

  lemma NamesReaped(s: Tree, i: nat, j: nat)
    requires i in s.inodes && s.inodes[i].nlink == 0
    ensures Names(s.(inodes := s.inodes - {i}), j) == Names(s, j)
  {
    var t := s.(inodes := s.inodes - {i});
    forall d, k ensures (d, k) in Names(t, j) <==> (d, k) in Names(s, j) {
      assert d >= 0 && k >= 0 ==> (Hit(t, d, k, j) <==> Hit(s, d, k, j));
    }
  }

  // ---------------------------------------------------------------- removed directories

  /** A directory without links may still be somebody's current directory. */
  ghost predicate CanEnter(s: Tree, root: nat, dp: nat, k: nat, name: string) {
    && Good(s, root) && dp in s.inodes && s.inodes[dp].kind.Dir? && NoName(s.inodes[dp].ents, name) && FreeSlot(s.inodes[dp].ents, k)
    && name != "." && name != ".." && |name| <= DIRSIZ
  }

  /** The code does not refuse to create a file in a removed directory; the counts stay right exactly
      if the directory is still linked. */
  lemma FileNeedsLinkedParent(s: Tree, root: nat, dp: nat, k: nat, name: string, i: nat, kind: Kind)
    requires CanEnter(s, root, dp, k, name) && i > 0 && i !in s.inodes && !kind.Dir?
    ensures Good(NewFile(s, dp, k, name, i, kind), root) <==> Linked(s, dp)
  {
    hide Good, DirOk;
    var t := NewFile(s, dp, k, name, i, kind);
    if Linked(s, dp) { NewFileKeeps(s, root, dp, k, name, i, kind); }
    else {
      StrayUnnamed(s, root, dp, k, name, i, kind);
      if Good(t, root) { CountAt(t, root, i); }
    }
  }

  /** A file made in a removed directory has a link, and no linked directory names it. */
  lemma StrayUnnamed(s: Tree, root: nat, dp: nat, k: nat, name: string, i: nat, kind: Kind)
    requires CanEnter(s, root, dp, k, name) && i > 0 && i !in s.inodes && !kind.Dir? && !Linked(s, dp)
    ensures var t := NewFile(s, dp, k, name, i, kind); i in t.inodes && t.inodes[i].nlink == 1 && Names(t, i) == {}
  {
    hide Good, DirOk;
    var t := NewFile(s, dp, k, name, i, kind);
    forall e: nat, m: nat ensures !Hit(t, e, m, i) {
      if Hit(t, e, m, i) { assert Hit(s, e, m, i); HitExists(s, root, e, m, i); }
    }
  }

  lemma CountAt(s: Tree, root: nat, i: nat)
    requires Good(s, root) && i in s.inodes
    ensures s.inodes[i].nlink == |Names(s, i)|
  {
    hide DirOk, Names;
  }

  lemma LinkNeedsLinkedParent(s: Tree, root: nat, dp: nat, k: nat, name: string, i: nat)
    requires CanEnter(s, root, dp, k, name) && i in s.inodes && !s.inodes[i].kind.Dir?
    ensures Good(NewLink(s, dp, k, name, i), root) <==> Linked(s, dp)
  {
    hide Good, DirOk;
    var t := NewLink(s, dp, k, name, i);
    CountAt(s, root, i);
    if Linked(s, dp) { NewLinkKeeps(s, root, dp, k, name, i); }
    else {
      forall e, m ensures (e, m) in Names(t, i) <==> (e, m) in Names(s, i) {
        assert e >= 0 && m >= 0 ==> (Hit(t, e, m, i) <==> Hit(s, e, m, i));
      }
      assert Names(t, i) == Names(s, i);
      if Good(t, root) { CountAt(t, root, i); }
    }
  }

  lemma DirNeedsLinkedParent(s: Tree, root: nat, dp: nat, k: nat, name: string, i: nat)
    requires CanEnter(s, root, dp, k, name) && i > 0 && i !in s.inodes
    ensures Good(NewDir(s, dp, k, name, i), root) <==> Linked(s, dp)
  {
    hide Good, DirOk, Names;
    var t := NewDir(s, dp, k, name, i);
    if Linked(s, dp) { NewDirKeeps(s, root, dp, k, name, i); }
    else if Good(t, root) {
      RootLinked(s, root);
      CountAt(s, root, dp);
      UnnamedHits(s, dp);
      var p, j := OwnName(t, root, dp);
      OldName(s, dp, k, name, i, p, j);
      EntryInUp(t, root, dp, p, j);
      AtDir(t, root, dp);
      NotOwnParent(t, root, dp);
    }
  }

  lemma OldName(s: Tree, dp: nat, k: nat, name: string, i: nat, p: nat, j: nat)
    requires dp in s.inodes && i !in s.inodes && dp != i && i > 0 && Hit(NewDir(s, dp, k, name, i), p, j, dp) && j >= 2
    ensures p == dp || Hit(s, p, j, dp)
  {
  }

  lemma NotOwnParent(s: Tree, root: nat, d: nat)
    requires Linked(s, d) && DirOk(s, root, d) && d != root
    ensures d in s.up && s.up[d] != d
  {
  }
}
