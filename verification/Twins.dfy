/** Two destinations that look alike: same names, same inodes up to numbering, same everything but modification times. */
module Twins {
  import opened Prelude
  import opened FileSystem

  /** An inode with its modification time forgotten. */
  function Faded(inode: Option<Inode>): Option<Inode> {
    match inode
    case None => None
    case Some(i) => Some(i.(meta := i.meta.(mtime := 0)))
  }

  /** Inode numbers in use are below the next one to be given out. */
  ghost predicate Tidy(fs: FS) {
    forall p :: p in fs.names ==> fs.names[p] in fs.inodes && fs.names[p] < fs.next
  }

  ghost predicate Twin(a: FS, b: FS) {
    && Tidy(a) && Tidy(b)
    && (forall p :: p in a.names <==> p in b.names)
    && (forall p :: Faded(Lookup(a, p)) == Faded(Lookup(b, p)))
    && (forall p, q :: Shares(a, p, q) <==> Shares(b, p, q))
  }

  lemma TwinAt(a: FS, b: FS, p: Path)
    requires Twin(a, b)
    ensures p in a.names <==> p in b.names
    ensures Lookup(a, p).Some? <==> Lookup(b, p).Some?
    ensures Lookup(a, p).Some? <==> p in a.names
    ensures Faded(Lookup(a, p)) == Faded(Lookup(b, p))
    ensures IsDir(a, p) <==> IsDir(b, p)
  {
  }

  lemma {:induction false} TwinLstat(a: FS, b: FS, p: Path)
    requires Twin(a, b)
    ensures Lstat(a, p).Missing? <==> Lstat(b, p).Missing?
    ensures Lstat(a, p).Blocked? <==> Lstat(b, p).Blocked?
    ensures Lstat(a, p).Present? ==> Lstat(b, p).Present? && Faded(Some(Lstat(a, p).inode)) == Faded(Some(Lstat(b, p).inode))
    decreases |p|
  {
    hide Twin;
    TwinAt(a, b, p);
    if Lookup(a, p).None? && p != [] {
      TwinLstat(a, b, Parent(p));
    }
  }

  lemma TwinReadFile(a: FS, b: FS, p: Path)
    requires Twin(a, b)
    ensures ReadFile(a, p) == ReadFile(b, p)
  {
    hide Twin;
    TwinLstat(a, b, p);
  }

  /** Stamping a directory is invisible to a twin. */
  lemma BumpFades(proc: Process, fs: FS, d: Path)
    requires Tidy(fs)
    ensures Tidy(Bump(proc, fs, d)) && Bump(proc, fs, d).names == fs.names && Bump(proc, fs, d).next == fs.next
    ensures forall p :: Faded(Lookup(Bump(proc, fs, d), p)) == Faded(Lookup(fs, p))
  {
  }

  lemma TwinBump(x: Process, y: Process, a: FS, b: FS, d: Path)
    requires Twin(a, b)
    ensures Twin(Bump(x, a, d), Bump(y, b, d))
  {
    BumpFades(x, a, d);
    BumpFades(y, b, d);
    var c, e := Bump(x, a, d), Bump(y, b, d);
    assert forall p, q :: Shares(c, p, q) == Shares(a, p, q) && Shares(e, p, q) == Shares(b, p, q);
  }

  lemma NameFades(fs: FS, p: Path, inode: Inode)
    requires Tidy(fs)
    ensures Tidy(Name(fs, p, inode)) && Lookup(Name(fs, p, inode), p) == Some(inode)
    ensures forall q :: q != p ==> Lookup(Name(fs, p, inode), q) == Lookup(fs, q)
    ensures forall q, r :: Shares(Name(fs, p, inode), q, r) <==>
      if q == p || r == p then q == r else Shares(fs, q, r)
  {
  }

  lemma TwinCreate(x: Process, y: Process, a: FS, b: FS, p: Path, i: Inode, j: Inode)
    requires Twin(a, b) && p != [] && Faded(Some(i)) == Faded(Some(j))
    ensures Twin(Create(x, a, p, i), Create(y, b, p, j))
  {
    NameFades(a, p, i);
    NameFades(b, p, j);
    var c, d := Name(a, p, i), Name(b, p, j);
    assert Twin(c, d);
    hide Twin, Bump;
    TwinBump(x, y, c, d, Parent(p));
  }

  /** Two processes that differ only in their clocks. */
  predicate SameOwner(x: Process, y: Process) {
    x.uid == y.uid && x.gid == y.gid
  }

  lemma {:induction false} TwinMkdirAll(x: Process, y: Process, a: FS, b: FS, p: Path)
    requires Twin(a, b) && SameOwner(x, y) && MkdirAll(x, a, p).Ok?
    ensures MkdirAll(y, b, p).Ok? && Twin(MkdirAll(x, a, p).value, MkdirAll(y, b, p).value)
    decreases |p|
  {
    TwinAt(a, b, p);
    hide Twin, Create;
    if Lookup(a, p).None? {
      TwinMkdirAll(x, y, a, b, Parent(p));
      var c, d := MkdirAll(x, a, Parent(p)).value, MkdirAll(y, b, Parent(p)).value;
      TwinCreate(x, y, c, d, p, Dir(Fresh(x, c, DIR_MODE)), Dir(Fresh(y, d, DIR_MODE)));
    }
  }

  lemma TwinInstall(x: Process, y: Process, a: FS, b: FS, p: Path, data: Bytes)
    requires Twin(a, b) && SameOwner(x, y) && Install(x, a, p, data).Ok?
    ensures Install(y, b, p, data).Ok? && Twin(Install(x, a, p, data).value, Install(y, b, p, data).value)
  {
    TwinAt(a, b, p);
    TwinAt(a, b, Parent(p));
    hide Twin, Create, Bump;
    var i, j := File(Fresh(x, a, FILE_MODE), data), File(Fresh(y, b, FILE_MODE), data);
    TwinCreate(x, y, a, b, p, i, j);
    TwinBump(x, y, Create(x, a, p, i), Create(y, b, p, j), Parent(p));
  }

  lemma TwinUnname(a: FS, b: FS, p: Path)
    requires Twin(a, b)
    ensures Twin(a.(names := a.names - {p}), b.(names := b.names - {p}))
  {
    var c, d := a.(names := a.names - {p}), b.(names := b.names - {p});
    forall q ensures Faded(Lookup(c, q)) == Faded(Lookup(d, q)) {
      assert q != p ==> Lookup(c, q) == Lookup(a, q) && Lookup(d, q) == Lookup(b, q);
    }
    forall q, r ensures Shares(c, q, r) <==> Shares(d, q, r) {
      assert Shares(c, q, r) == (Shares(a, q, r) && q != p && r != p);
      assert Shares(d, q, r) == (Shares(b, q, r) && q != p && r != p);
    }
  }

  lemma TwinChildren(a: FS, b: FS, p: Path)
    requires Twin(a, b)
    ensures HasChild(a, p) <==> HasChild(b, p)
  {
  }

  lemma TwinRemove(x: Process, y: Process, a: FS, b: FS, p: Path)
    requires Twin(a, b)
    ensures Remove(x, a, p).Ok? <==> Remove(y, b, p).Ok?
    ensures Remove(x, a, p).Ok? ==> Twin(Remove(x, a, p).value, Remove(y, b, p).value)
  {
    TwinAt(a, b, p);
    TwinChildren(a, b, p);
    TwinUnname(a, b, p);
    hide Twin, Bump, HasChild;
    TwinBump(x, y, a.(names := a.names - {p}), b.(names := b.names - {p}), Parent(p));
  }

  lemma TwinSymlink(x: Process, y: Process, a: FS, b: FS, p: Path, target: string)
    requires Twin(a, b) && SameOwner(x, y) && Symlink(x, a, p, target).Ok?
    ensures Symlink(y, b, p, target).Ok? && Twin(Symlink(x, a, p, target).value, Symlink(y, b, p, target).value)
  {
    TwinAt(a, b, p);
    TwinAt(a, b, Parent(p));
    hide Twin, Create;
    TwinCreate(x, y, a, b, p, Link(Fresh(x, a, 511), target), Link(Fresh(y, b, 511), target));
  }

  lemma TwinRename(a: FS, b: FS, first: Path, p: Path)
    requires Twin(a, b) && first in a.names && first in b.names
    ensures Twin(a.(names := a.names[p := a.names[first]]), b.(names := b.names[p := b.names[first]]))
  {
    var c, d := a.(names := a.names[p := a.names[first]]), b.(names := b.names[p := b.names[first]]);
    forall q ensures Faded(Lookup(c, q)) == Faded(Lookup(d, q)) {
      var r := if q == p then first else q;
      assert Lookup(c, q) == Lookup(a, r) && Lookup(d, q) == Lookup(b, r);
    }
    forall q, r ensures Shares(c, q, r) <==> Shares(d, q, r) {
      var s, t := if q == p then first else q, if r == p then first else r;
      assert Shares(c, q, r) == Shares(a, s, t) && Shares(d, q, r) == Shares(b, s, t);
    }
  }

  lemma TwinLinkTo(x: Process, y: Process, a: FS, b: FS, first: Path, p: Path)
    requires Twin(a, b) && LinkTo(x, a, first, p).Ok?
    ensures LinkTo(y, b, first, p).Ok? && Twin(LinkTo(x, a, first, p).value, LinkTo(y, b, first, p).value)
  {
    TwinAt(a, b, p);
    TwinAt(a, b, first);
    TwinAt(a, b, Parent(p));
    TwinRename(a, b, first, p);
    hide Twin, Bump;
    TwinBump(x, y, a.(names := a.names[p := a.names[first]]), b.(names := b.names[p := b.names[first]]), Parent(p));
  }

  lemma SetMetaFades(fs: FS, p: Path, meta: Meta)
    requires Tidy(fs) && p in fs.names
    ensures Tidy(SetMeta(fs, p, meta)) && SetMeta(fs, p, meta).names == fs.names
    ensures forall q :: Shares(fs, q, p) ==> Lookup(SetMeta(fs, p, meta), q) == Some(Lookup(fs, q).value.(meta := meta))
    ensures forall q :: !Shares(fs, q, p) ==> Lookup(SetMeta(fs, p, meta), q) == Lookup(fs, q)
  {
  }

  lemma TwinSetMeta(a: FS, b: FS, p: Path, m: Meta, n: Meta)
    requires Twin(a, b) && p in a.names && m.(mtime := 0) == n.(mtime := 0)
    ensures Twin(SetMeta(a, p, m), SetMeta(b, p, n))
  {
    SetMetaFades(a, p, m);
    SetMetaFades(b, p, n);
    var c, d := SetMeta(a, p, m), SetMeta(b, p, n);
    forall q ensures Faded(Lookup(c, q)) == Faded(Lookup(d, q)) {
      TwinAt(a, b, q);
    }
    assert forall q, r :: Shares(c, q, r) == Shares(a, q, r) && Shares(d, q, r) == Shares(b, q, r);
  }
}
