/** create, link, unlink and symlink, step by step as in xv6-lab-filesystem/sysfile.c:118-284 and
    517-550, with the directory scans of fs.c:571-625 and of isdirempty. */
module LinkOps {
  import opened Common
  import opened LinkCounts

  /** skipelem keeps DIRSIZ bytes of a path element. */
  function Trunc(elem: string): (name: string)
    ensures name <= elem && |name| == if |elem| < DIRSIZ then |elem| else DIRSIZ
  {
    if |elem| > DIRSIZ then elem[..DIRSIZ] else elem
  }

  /** x is the inode of the first live entry with the name. */
  ghost predicate FirstNamed(ents: seq<Ent>, name: string, x: nat) {
    exists k :: 0 <= k < |ents| && FirstAt(ents, name, k) && ents[k].inum == x
  }

  predicate FirstAt(ents: seq<Ent>, name: string, k: nat)
    requires k < |ents|
  {
    && ents[k].inum != 0 && ents[k].name == name
    && forall j :: 0 <= j < k && ents[j].inum != 0 ==> ents[j].name != name
  }

  lemma FirstIs(ents: seq<Ent>, name: string, k: nat)
    requires k < |ents| && FirstAt(ents, name, k)
    ensures forall x :: FirstNamed(ents, name, x) <==> x == ents[k].inum
  {
  }

  lemma NoneNamed(ents: seq<Ent>, name: string)
    requires NoName(ents, name)
    ensures forall x :: !FirstNamed(ents, name, x)
  {
  }

  class FileTree {
    const root: nat
    var inodes: map<nat, Inode>
    ghost var up: map<nat, nat>
    ghost var depth: map<nat, nat>

    ghost function S(): Tree
      reads this
    {
      Tree(inodes, up, depth)
    }

    ghost predicate Valid()
      reads this
    {
      Good(S(), root)
    }

    /** What mkfs leaves: a root directory that is its own parent. */
    constructor (root: nat)
      requires root > 0
      ensures Valid() && this.root == root && inodes == map[root := Inode(Dir, 1, [Ent(root, "."), Ent(root, "..")])]
    {
      this.root := root;
      inodes := map[root := Inode(Dir, 1, [Ent(root, "."), Ent(root, "..")])];
      up, depth := map[root := root], map[root := 0];
      new;
      RootAlone(root);
    }

    /** dirlookup: the first live entry with the name, or -1. */
    method Dirlookup(dp: nat, name: string) returns (k: int)
      requires IsDir(inodes, dp)
      ensures k == -1 <==> NoName(inodes[dp].ents, name)
      ensures k != -1 ==>
        && 0 <= k < |inodes[dp].ents| && inodes[dp].ents[k].inum != 0 && inodes[dp].ents[k].name == name
        && forall j :: 0 <= j < k && inodes[dp].ents[j].inum != 0 ==> inodes[dp].ents[j].name != name
    {
      var ents, off := inodes[dp].ents, 0;
      while off < |ents|
        invariant 0 <= off <= |ents| && forall j :: 0 <= j < off && ents[j].inum != 0 ==> ents[j].name != name
      {
        if ents[off].inum != 0 && ents[off].name == name {
          return off;
        }
        off := off + 1;
      }
      return -1;
    }

    /** dirlink: refuses a name that is there; otherwise uses the first empty slot or the end. */
    method Dirlink(dp: nat, name: string, inum: nat) returns (ok: bool, k: nat)
      requires IsDir(inodes, dp)
      modifies `inodes
      ensures ok <==> NoName(old(inodes)[dp].ents, name)
      ensures !ok ==> inodes == old(inodes)
      ensures ok ==>
        && FreeSlot(old(inodes)[dp].ents, k) && (forall j :: 0 <= j < k ==> old(inodes)[dp].ents[j].inum != 0)
        && S() == WithEnt(old(S()), dp, k, Ent(inum, name))
    {
      k := 0;
      var hit := Dirlookup(dp, name);
      if hit != -1 {
        return false, 0;
      }
      var ents, off := inodes[dp].ents, 0;
      while off < |ents| && ents[off].inum != 0
        invariant 0 <= off <= |ents| && forall j :: 0 <= j < off ==> ents[j].inum != 0
      {
        off := off + 1;
      }
      inodes := inodes[dp := inodes[dp].(ents := PutEnt(ents, off, Ent(inum, name)))];
      return true, off;
    }

    /** isdirempty */
    method IsDirEmpty(i: nat) returns (r: bool)
      requires i in inodes
      ensures r <==> EmptyDir(inodes[i])
    {
      var ents, off := inodes[i].ents, 2;
      while off < |ents|
        invariant 2 <= off && (off <= |ents| || |ents| < 2) && forall k :: 2 <= k < off && k < |ents| ==> ents[k].inum == 0
      {
        if ents[off].inum != 0 {
          return false;
        }
        off := off + 1;
      }
      return true;
    }

    /** The "." and ".." entries of a new directory. */
    method Dots(i: nat, dp: nat)
      requires IsDir(inodes, i) && inodes[i].ents == [] && i > 0
      modifies `inodes
      ensures inodes == old(inodes)[i := old(inodes)[i].(ents := [Ent(i, "."), Ent(dp, "..")])]
    {
      var ok1, k1 := Dirlink(i, ".", i);
      assert inodes[i].ents == [Ent(i, ".")];
      var ok2, k2 := Dirlink(i, "..", dp);
      assert inodes[i].ents == [Ent(i, "."), Ent(dp, "..")];
    }

    /** The part of create after ialloc, for a directory. The tree stays right exactly if d is linked. */
    method MakeDir(d: nat, name: string, inum: nat)
      requires Valid() && inum > 0 && inum !in inodes && IsDir(inodes, d) && NoName(inodes[d].ents, name) && |name| <= DIRSIZ
      modifies this
      ensures Made(old(inodes), inodes, d, name, Dir, inum) && (Valid() <==> old(inodes)[d].nlink > 0)
    {
      hide Good, Names, DirOk, Made, NoName, FreeSlot;
      ghost var s := S();
      DotsTaken(s, root, d);
      inodes := inodes[inum := Inode(Dir, 1, [])];
      inodes := inodes[d := inodes[d].(nlink := inodes[d].nlink + 1)];
      Dots(inum, d);
      var ok, k := Dirlink(d, name, inum);
      up, depth := up[inum := d], depth[inum := DepthOf(s, d) + 1];
      assert inodes == NewDir(s, d, k, name, inum).inodes;
      MadeDir(s, d, k, name, inum);
      DirNeedsLinkedParent(s, root, d, k, name, inum);
    }

    /** The part of create after ialloc, for a file or device. */
    method MakeFile(d: nat, name: string, kind: Kind, inum: nat)
      requires Valid() && inum > 0 && inum !in inodes && IsDir(inodes, d) && NoName(inodes[d].ents, name) && |name| <= DIRSIZ && !kind.Dir?
      modifies this
      ensures Made(old(inodes), inodes, d, name, kind, inum) && (Valid() <==> old(inodes)[d].nlink > 0)
      ensures old(inodes)[d].nlink == 0 ==> Names(S(), inum) == {}
    {
      hide Good, Names, DirOk;
      ghost var s := S();
      DotsTaken(s, root, d);
      inodes := inodes[inum := Inode(kind, 1, [])];
      var ok, k := Dirlink(d, name, inum);
      FileNeedsLinkedParent(s, root, d, k, name, inum, kind);
      if s.inodes[d].nlink == 0 { StrayUnnamed(s, root, d, k, name, inum, kind); }
      assert inodes == NewFile(s, d, k, name, inum, kind).inodes;
    }

    /** create: dp is what nameiparent found, a directory that may have been removed already; inum is the
        number ialloc found. An existing file is returned exactly if a file is wanted and the first entry
        with the name leads to a file or device; otherwise the new inode has one link, and
        a new directory its two entries. The tree stays right exactly if nothing was made in a removed
        directory. (In a removed directory ".." may name a freed inode; ilock then panics, None here.) */
    method Create(dp: Option<nat>, elem: string, kind: Kind, inum: nat) returns (r: Option<nat>)
      requires Valid() && inum > 0 && inum !in inodes && (dp.Some? ==> IsDir(inodes, dp.value))
      modifies this
      ensures r.None? ==> inodes == old(inodes)
      ensures r.Some? && r.value in old(inodes) ==> inodes == old(inodes)
      ensures forall x :: x in old(inodes) ==>
        (r == Some(x) <==> dp.Some? && FirstNamed(old(inodes)[dp.value].ents, Trunc(elem), x) && kind.File? && (old(inodes)[x].kind.File? || old(inodes)[x].kind.Device?))
      ensures r == Some(inum) <==> dp.Some? && NoName(old(inodes)[dp.value].ents, Trunc(elem))
      ensures Valid() <==> (r == Some(inum) ==> old(inodes)[dp.value].nlink > 0)
      ensures r.Some? ==> r == Some(inum) || r.value in old(inodes)
      ensures r == Some(inum) ==> Made(old(inodes), inodes, dp.value, Trunc(elem), kind, inum)
      ensures r == Some(inum) && old(inodes)[dp.value].nlink == 0 && !kind.Dir? ==> Names(S(), inum) == {}
    {
      hide Good, Names, DirOk;
      if dp.None? {
        return None;
      }
      var d, name := dp.value, Trunc(elem);
      var hit := Dirlookup(d, name);
      if hit != -1 {
        var ip := inodes[d].ents[hit].inum;
        FirstIs(inodes[d].ents, name, hit);
        if ip in inodes && kind.File? && (inodes[ip].kind.File? || inodes[ip].kind.Device?) {
          return Some(ip);
        }
        return None;
      }
      NoneNamed(inodes[d].ents, name);
      hide FirstNamed;
      if kind.Dir? {
        MakeDir(d, name, inum);
      } else {
        MakeFile(d, name, kind, inum);
      }
      return Some(inum);
    }

    /** sys_link: i is what namei found. The link is counted first and taken back on failure. */
    method Link(i: Option<nat>, dp: Option<nat>, elem: string) returns (ok: bool)
      requires Valid() && (i.Some? ==> i.value in inodes) && (dp.Some? ==> IsDir(inodes, dp.value))
      modifies this
      ensures ok <==> i.Some? && dp.Some? && !old(inodes)[i.value].kind.Dir? && NoName(old(inodes)[dp.value].ents, Trunc(elem))
      ensures Valid() <==> (ok ==> old(inodes)[dp.value].nlink > 0)
      ensures !ok ==> inodes == old(inodes)
      ensures ok ==> LinkAdded(old(inodes), inodes, dp.value, Trunc(elem), i.value)
    {
      hide Good, Names, DirOk;
      if i.None? {
        return false;
      }
      var ip, name := i.value, Trunc(elem);
      ghost var s := S();
      if inodes[ip].kind.Dir? {
        return false;
      }
      inodes := inodes[ip := inodes[ip].(nlink := inodes[ip].nlink + 1)];
      var k := 0;
      ok := false;
      if dp.Some? {
        ok, k := Dirlink(dp.value, name, ip);
      }
      if !ok {
        inodes := inodes[ip := inodes[ip].(nlink := inodes[ip].nlink - 1)];
        assert inodes == s.inodes;
        return false;
      }
      DotsTaken(s, root, dp.value);
      LinkNeedsLinkedParent(s, root, dp.value, k, name, ip);
      assert inodes == NewLink(s, dp.value, k, name, ip).inodes;
    }

    /** sys_unlink: refuses "." and "..", missing names and directories that are not empty. The panic
        on a link count below 1 cannot happen. */
    method Unlink(dp: Option<nat>, elem: string) returns (ok: bool)
      requires Valid() && (dp.Some? ==> IsDir(inodes, dp.value))
      modifies this
      ensures Valid()
      ensures !ok ==> inodes == old(inodes)
      ensures ok <==> dp.Some? && Removable(old(inodes), dp.value, Trunc(elem))
      ensures ok ==> SomeUnlinked(old(inodes), inodes, dp.value, Trunc(elem))
    {
      hide Good, Names, DirOk;
      if dp.None? {
        return false;
      }
      var d, name := dp.value, Trunc(elem);
      ghost var s := S();
      if name == "." || name == ".." {
        return false;
      }
      var k := Dirlookup(d, name);
      if k == -1 {
        return false;
      }
      OnlyLinkedNames(s, root, d, k);
      HitThere(s, root, d, k);
      var ip := inodes[d].ents[k].inum;
      NamedSlot(s, root, d, k);
      if inodes[ip].kind.Dir? {
        var empty := IsDirEmpty(ip);
        if !empty {
          OneNamed(s, root, d, k);
          return false;
        }
        RemoveDirKeeps(s, root, d, k, ip);
        ParentStays(s, root, d, k, ip);
      } else {
        RemoveFileKeeps(s, root, d, k, ip);
      }
      inodes := inodes[d := inodes[d].(ents := inodes[d].ents[k := Ent(0, "")])];
      if inodes[ip].kind.Dir? {
        inodes := inodes[d := inodes[d].(nlink := inodes[d].nlink - 1)];
      }
      inodes := inodes[ip := inodes[ip].(nlink := inodes[ip].nlink - 1)];
      assert inodes == Removed(s, d, k, ip).inodes;
      assert Unlinks(s.inodes, inodes, d, k, ip, name);
      return true;
    }

    /** sys_symlink: the inode is made first; if the target cannot be written or the name exists, its
        last iput frees it again. */
    method SymlinkAt(dp: Option<nat>, elem: string, inum: nat, written: bool) returns (ok: bool)
      requires Valid() && inum > 0 && inum !in inodes && (dp.Some? ==> IsDir(inodes, dp.value))
      modifies this
      ensures ok <==> dp.Some? && written && NoName(old(inodes)[dp.value].ents, Trunc(elem))
      ensures Valid() <==> (ok ==> old(inodes)[dp.value].nlink > 0)
      ensures !ok ==> inodes == old(inodes)
      ensures ok ==> Made(old(inodes), inodes, dp.value, Trunc(elem), Symlink, inum)
    {
      hide Good, Names, DirOk;
      if dp.None? {
        return false;
      }
      var d, name := dp.value, Trunc(elem);
      ghost var s := S();
      inodes := inodes[inum := Inode(Symlink, 0, [])];
      if !written {
        inodes := inodes - {inum};
        assert inodes == s.inodes;
        return false;
      }
      var k;
      ok, k := Dirlink(d, name, inum);
      if !ok {
        inodes := inodes - {inum};
        assert inodes == s.inodes;
        return false;
      }
      inodes := inodes[inum := inodes[inum].(nlink := inodes[inum].nlink + 1)];
      DotsTaken(s, root, d);
      FileNeedsLinkedParent(s, root, d, k, name, inum, Symlink);
      assert inodes == NewFile(s, d, k, name, inum, Symlink).inodes;
    }

    /** Any sequence of calls, failing ones included, does what the calls say and keeps the link counts,
        the names and the tree, up to the first call that makes an entry in a removed directory. */
    method Run(ops: seq<Op>) returns (n: nat)
      requires Valid()
      modifies this
      ensures n <= |ops| && Valid() && Effects(old(inodes), inodes, ops[..n]) && (n < |ops| ==> Stray(inodes, ops[n]))
      ensures forall i :: i in inodes ==> inodes[i].nlink == |Names(S(), i)|
    {
      hide Good, Names, Effect;
      n := 0;
      assert ops[..0] == [];
      while n < |ops|
        invariant 0 <= n <= |ops| && Valid() && Effects(old(inodes), inodes, ops[..n])
      {
        if Strays(ops[n]) {
          break;
        }
        ghost var before := inodes;
        Execute(ops[n]);
        EffectsExtend(old(inodes), before, inodes, ops[..n], ops[n]);
        assert ops[..n] + [ops[n]] == ops[..n + 1];
        n := n + 1;
      }
      CountsExact(S(), root);
    }

    predicate Strays(op: Op)
      reads this
    {
      Stray(inodes, op)
    }

    /** One call. A number that is not free is not what ialloc finds, and a parent that is no directory is
        not what nameiparent finds: such a call fails. The tree stays right exactly if the call does not
        make an entry in a removed directory. */
    method Execute(op: Op)
      requires Valid()
      modifies this
      ensures Effect(old(inodes), inodes, op) && (Valid() <==> !Stray(old(inodes), op))
    {
      hide Good, Names;
      match op
      case DoCreate(dp, elem, kind, inum) =>
        if IsDir(inodes, dp) && inum > 0 && inum !in inodes { var r := Create(Some(dp), elem, kind, inum); }
      case DoLink(i, dp, elem) =>
        if i in inodes && IsDir(inodes, dp) { var r := Link(Some(i), Some(dp), elem); }
      case DoUnlink(dp, elem) =>
        if IsDir(inodes, dp) { var r := Unlink(Some(dp), elem); }
      case DoSymlink(dp, elem, inum, written) =>
        if IsDir(inodes, dp) && inum > 0 && inum !in inodes { var r := SymlinkAt(Some(dp), elem, inum, written); }
      case DoIput(i) =>
        if i in inodes { LastIput(i); }
    }

    /** The last iput of an inode without links. */
    method LastIput(i: nat)
      requires Valid() && i in inodes
      modifies this
      ensures Valid()
      ensures inodes == if old(inodes)[i].nlink == 0 then old(inodes) - {i} else old(inodes)
    {
      hide Good;
      if inodes[i].nlink == 0 {
        ReapKeeps(S(), root, i);
        inodes := inodes - {i};
      }
    }
  }

  /** One system call, or the moment an inode loses its last reference. */
  datatype Op = DoCreate(dp: nat, elem: string, kind: Kind, inum: nat) | DoLink(i: nat, dp: nat, elem: string)
    | DoUnlink(dp: nat, elem: string) | DoSymlink(dp: nat, elem: string, inum: nat, written: bool) | DoIput(i: nat)

  /** x was put into an empty slot or at the end. */
  ghost predicate AddedTo(before: seq<Ent>, after: seq<Ent>, x: Ent) { exists k :: FreeSlot(before, k) && after == PutEnt(before, k, x) }

  type Inodes = map<nat, Inode>

  predicate IsDir(m: Inodes, d: nat) { d in m && m[d].kind.Dir? }

  /** The call makes an entry in a directory that has been removed. */
  predicate Stray(m: Inodes, op: Op) {
    && (op.DoCreate? || op.DoLink? || op.DoSymlink?) && IsDir(m, op.dp) && m[op.dp].nlink == 0 && NoName(m[op.dp].ents, Trunc(op.elem))
    && (if op.DoLink? then op.i in m && !m[op.i].kind.Dir? else op.inum > 0 && op.inum !in m && (op.DoSymlink? ==> op.written))
  }

  /** The new inode with one link and its entry in dp; for a directory also "." and ".." and a link
      more for dp; nothing else. */
  ghost predicate Made(m: Inodes, n: Inodes, dp: nat, name: string, kind: Kind, i: nat) {
    && dp in m && dp in n && dp != i && i !in m && AddedTo(m[dp].ents, n[dp].ents, Ent(i, name))
    && n == m[dp := m[dp].(ents := n[dp].ents, nlink := if kind.Dir? then m[dp].nlink + 1 else m[dp].nlink)]
             [i := Inode(kind, 1, if kind.Dir? then [Ent(i, "."), Ent(dp, "..")] else [])]
  }

  /** One new entry in dp, one more link for i, nothing else. */
  ghost predicate LinkAdded(m: Inodes, n: Inodes, dp: nat, name: string, i: nat) {
    && dp in m && dp in n && i in m && i != dp && AddedTo(m[dp].ents, n[dp].ents, Ent(i, name))
    && n == m[dp := m[dp].(ents := n[dp].ents)][i := m[i].(nlink := m[i].nlink + 1)]
  }

  /** Entry k of dp named i and is empty now; i has one link less, and so has dp if i is a directory. */
  ghost predicate Unlinks(m: Inodes, n: Inodes, dp: nat, k: nat, i: nat, name: string) {
    && dp in m && i in m && i != dp && 2 <= k < |m[dp].ents| && m[dp].ents[k] == Ent(i, name)
    && m[i].nlink >= 1 && (m[i].kind.Dir? ==> EmptyDir(m[i]) && m[i].nlink == 1)
    && n == m[dp := m[dp].(ents := m[dp].ents[k := Ent(0, "")], nlink := if m[i].kind.Dir? then Minus1(m[dp].nlink) else m[dp].nlink)]
             [i := m[i].(nlink := m[i].nlink - 1)]
  }

  ghost predicate SomeUnlinked(m: Inodes, n: Inodes, dp: nat, name: string) { exists k, i :: Unlinks(m, n, dp, k, i, name) }

  /** A directory with entries besides "." and "..". */
  predicate Blocked(m: Inodes, i: nat) { i in m && m[i].kind.Dir? && !EmptyDir(m[i]) }

  /** An entry with the name that unlink does not refuse. */
  ghost predicate Removable(m: Inodes, dp: nat, name: string) {
    dp in m && name != "." && name != ".." && exists k :: 0 <= k < |m[dp].ents| && m[dp].ents[k].inum != 0 && m[dp].ents[k].name == name && !Blocked(m, m[dp].ents[k].inum)
  }

  /** What one call does to the inodes. */
  ghost predicate Effect(m: Inodes, n: Inodes, op: Op) {
    match op
    case DoCreate(dp, elem, kind, inum) =>
      if IsDir(m, dp) && inum > 0 && inum !in m && NoName(m[dp].ents, Trunc(elem)) then Made(m, n, dp, Trunc(elem), kind, inum) else n == m
    case DoLink(i, dp, elem) =>
      if IsDir(m, dp) && i in m && !m[i].kind.Dir? && NoName(m[dp].ents, Trunc(elem)) then LinkAdded(m, n, dp, Trunc(elem), i) else n == m
    case DoUnlink(dp, elem) =>
      if IsDir(m, dp) && Removable(m, dp, Trunc(elem)) then SomeUnlinked(m, n, dp, Trunc(elem)) else n == m
    case DoSymlink(dp, elem, inum, written) =>
      if IsDir(m, dp) && inum > 0 && inum !in m && written && NoName(m[dp].ents, Trunc(elem)) then Made(m, n, dp, Trunc(elem), Symlink, inum) else n == m
    case DoIput(i) => n == if i in m && m[i].nlink == 0 then m - {i} else m
  }

  ghost predicate Effects(m: Inodes, n: Inodes, ops: seq<Op>)
    decreases |ops|
  {
    if ops == [] then n == m else exists v :: Effect(m, v, ops[0]) && Effects(v, n, ops[1..])
  }

  lemma {:induction false} EffectsExtend(m: Inodes, v: Inodes, n: Inodes, ops: seq<Op>, op: Op)
    requires Effects(m, v, ops) && Effect(v, n, op)
    ensures Effects(m, n, ops + [op])
    decreases |ops|
  {
    hide Effect;
    if ops == [] {
      assert Effects(n, n, (ops + [op])[1..]);
    } else {
      var w :| Effect(m, w, ops[0]) && Effects(w, v, ops[1..]);
      EffectsExtend(w, v, n, ops[1..], op);
      assert (ops + [op])[1..] == ops[1..] + [op];
    }
  }

  /** mkdir a; rmdir a, by a process that stays in a; creat f there: the file has a link and nobody
      names it. */
  method RemovedDirBreaks() returns (t: FileTree)
    ensures fresh(t) && !t.Valid() && 3 in t.inodes && t.inodes[3].nlink == 1 && Names(t.S(), 3) == {}
  {
    hide Good, Names;
    t := new FileTree(1);
    var r := t.Create(Some(1), "a", Dir, 2);
    assert t.Valid() && t.inodes[2] == Inode(Dir, 1, [Ent(2, "."), Ent(1, "..")]);
    AddedEnd([Ent(1, "."), Ent(1, "..")], t.inodes[1].ents, Ent(2, "a"));
    ghost var m := t.inodes;
    assert m[1].ents == [Ent(1, "."), Ent(1, ".."), Ent(2, "a")];
    assert m[1].ents[2].name == "a" && EmptyDir(m[2]) && Removable(m, 1, "a");
    var ok := t.Unlink(Some(1), "a");
    ghost var k, i :| Unlinks(m, t.inodes, 1, k, i, "a");
    assert t.Valid() && t.inodes[2] == Inode(Dir, 0, [Ent(2, "."), Ent(1, "..")]);
    r := t.Create(Some(2), "f", File, 3);
  }

  lemma MadeDir(s: Tree, d: nat, k: nat, name: string, inum: nat)
    requires d in s.inodes && inum !in s.inodes && FreeSlot(s.inodes[d].ents, k)
    ensures Made(s.inodes, NewDir(s, d, k, name, inum).inodes, d, name, Dir, inum)
  {
  }

  lemma AddedEnd(before: seq<Ent>, after: seq<Ent>, x: Ent)
    requires AddedTo(before, after, x) && forall k :: 0 <= k < |before| ==> before[k].inum != 0
    ensures after == before + [x]
  {
  }

  lemma RootAlone(root: nat)
    requires root > 0
    ensures Good(Tree(map[root := Inode(Dir, 1, [Ent(root, "."), Ent(root, "..")])], map[root := root], map[root := 0]), root)
  {
    var s := Tree(map[root := Inode(Dir, 1, [Ent(root, "."), Ent(root, "..")])], map[root := root], map[root := 0]);
    assert DirOk(s, root, root);
    assert Hit(s, root, 1, root);
    assert Names(s, root) == {(root, 1)};
  }

  lemma CountsExact(s: Tree, root: nat)
    requires Good(s, root)
    ensures forall i :: i in s.inodes ==> s.inodes[i].nlink == |Names(s, i)|
  {
    hide DirOk, Names;
  }

  /** "." and ".." are names in every directory, removed or not, so no new entry takes them. */
  lemma DotsTaken(s: Tree, root: nat, d: nat)
    requires Good(s, root) && IsDir(s.inodes, d)
    ensures forall name :: NoName(s.inodes[d].ents, name) ==> name != "." && name != ".."
  {
    hide Names;
    if Linked(s, d) {
      AtDir(s, root, d);
      assert s.inodes[d].ents[0].inum != 0 && s.inodes[d].ents[1].inum != 0;
    } else {
      assert Bare(s.inodes[d]);
    }
  }

  /** In a removed directory only "." and ".." are found. */
  lemma OnlyLinkedNames(s: Tree, root: nat, d: nat, k: nat)
    requires Good(s, root) && IsDir(s.inodes, d) && k < |s.inodes[d].ents| && s.inodes[d].ents[k].inum != 0
    requires s.inodes[d].ents[k].name != "." && s.inodes[d].ents[k].name != ".."
    ensures Linked(s, d)
  {
    hide Names, DirOk;
    assert s.inodes[d].nlink == 0 ==> Bare(s.inodes[d]);
  }

  /** A live entry names an allocated inode. */
  lemma HitThere(s: Tree, root: nat, d: nat, k: nat)
    requires Good(s, root) && Linked(s, d) && k < |s.inodes[d].ents| && s.inodes[d].ents[k].inum != 0
    ensures s.inodes[d].ents[k].inum in s.inodes
  {
    hide Names;
    AtDir(s, root, d);
    assert k >= 2 ==> EntOk(s, root, d, k);
  }

  lemma NamedSlot(s: Tree, root: nat, d: nat, k: nat)
    requires Good(s, root) && Linked(s, d) && k < |s.inodes[d].ents| && s.inodes[d].ents[k].inum != 0
    requires s.inodes[d].ents[k].name != "." && s.inodes[d].ents[k].name != ".."
    ensures CanRemove(s, root, d, k, s.inodes[d].ents[k].inum)
  {
    hide Names;
    AtDir(s, root, d);
    assert EntOk(s, root, d, k);
  }

  lemma OneNamed(s: Tree, root: nat, d: nat, k: nat)
    requires Good(s, root) && Linked(s, d) && k < |s.inodes[d].ents| && s.inodes[d].ents[k].inum != 0
    ensures forall j :: 0 <= j < |s.inodes[d].ents| && s.inodes[d].ents[j].inum != 0 && s.inodes[d].ents[j].name == s.inodes[d].ents[k].name ==> j == k
  {
    hide Good, Names, EntOk;
    AtDir(s, root, d);
    forall j | 0 <= j < |s.inodes[d].ents| && s.inodes[d].ents[j].inum != 0 && s.inodes[d].ents[j].name == s.inodes[d].ents[k].name ensures j == k {
      assert (j < k ==> PairOk(s, d, j, k)) && (k < j ==> PairOk(s, d, k, j));
    }
  }
}
