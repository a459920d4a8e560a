/**
 * The file system the receiver works on: names lead to inodes, inodes hold
 * content and attributes. Operations are the system calls the source makes.
 * Creating, renaming, linking or removing a name stamps the parent directory.
 * A symbolic link in the middle of a path is refused, never followed.
 */
module FileSystem {
  import opened Prelude

  /** Path segments from the root; the root itself is []. */
  type Path = seq<string>

  datatype Meta = Meta(mode: int, mtime: int, uid: int, gid: int)

  datatype Inode =
    | File(meta: Meta, content: Bytes)
    | Dir(meta: Meta)
    | Link(meta: Meta, target: string)

  datatype FS = FS(names: map<Path, nat>, inodes: map<nat, Inode>, next: nat, tick: nat)

  datatype FsError = ENOENT | EEXIST | ENOTDIR | EISDIR | ENOTEMPTY | ELOOP

  /** The process the calls run in: what the clock shows at each tick, and whose files they create. */
  datatype Process = Process(clock: nat -> int, uid: int, gid: int)

  const DIR_MODE := 493  // 0755
  const FILE_MODE := 420 // 0644

  /** filepath.Dir; the root is its own parent. */
  function Parent(p: Path): Path {
    if p == [] then [] else p[..|p| - 1]
  }

  /** filepath.Base; the root has no name. */
  function Base(p: Path): string {
    if p == [] then "" else p[|p| - 1]
  }

  function Lookup(fs: FS, p: Path): Option<Inode> {
    if p in fs.names && fs.names[p] in fs.inodes then Some(fs.inodes[fs.names[p]]) else None
  }

  predicate IsDir(fs: FS, p: Path) {
    Lookup(fs, p).Some? && Lookup(fs, p).value.Dir?
  }

  predicate IsFile(fs: FS, p: Path) {
    Lookup(fs, p).Some? && Lookup(fs, p).value.File?
  }

  /** An inode without its attributes: its kind, and its content or link target. */
  function Shape(inode: Inode): Inode {
    inode.(meta := Meta(0, 0, 0, 0))
  }

  predicate Shares(fs: FS, p: Path, q: Path) {
    p in fs.names && q in fs.names && fs.names[p] == fs.names[q]
  }

  /** Names form a tree of directories, inode numbers in use are below `next`, and no directory has two names. */
  ghost predicate Valid(fs: FS) {
    && IsDir(fs, [])
    && (forall p :: p in fs.names ==> fs.names[p] in fs.inodes && fs.names[p] < fs.next)
    && (forall p :: p in fs.names && p != [] ==> IsDir(fs, Parent(p)))
    && (forall p, q :: p in fs.names && q in fs.names && fs.names[p] == fs.names[q] && IsDir(fs, p) ==> p == q)
  }

  // ---- Reading ----

  datatype Status = Present(inode: Inode) | Missing | Blocked

  /** lstat: Blocked is the ENOTDIR case, which os.IsNotExist does not accept. */
  function Lstat(fs: FS, p: Path): Status
    decreases |p|
  {
    if Lookup(fs, p).Some? then Present(Lookup(fs, p).value)
    else if p == [] then Missing
    else
      match Lstat(fs, Parent(p))
      case Present(inode) => if inode.Dir? then Missing else Blocked
      case Missing => Missing
      case Blocked => Blocked
  }

  /** os.ReadFile with "does not exist" turned into no data, as its callers do. */
  function ReadFile(fs: FS, p: Path): Result<Option<Bytes>, FsError> {
    match Lstat(fs, p)
    case Present(inode) =>
      (match inode
       case File(_, content) => Ok(Some(content))
       case Dir(_) => Err(EISDIR)
       case Link(_, _) => Err(ELOOP))
    case Missing => Ok(None)
    case Blocked => Err(ENOTDIR)
  }

  // ---- Changing ----

  function Fresh(proc: Process, fs: FS, mode: int): Meta {
    Meta(mode, proc.clock(fs.tick), proc.uid, proc.gid)
  }

  /** Stamps directory d with the current time. */
  function Bump(proc: Process, fs: FS, d: Path): FS {
    match Lookup(fs, d)
    case None => fs
    case Some(inode) =>
      fs.(inodes := fs.inodes[fs.names[d] := inode.(meta := inode.meta.(mtime := proc.clock(fs.tick)))], tick := fs.tick + 1)
  }

  /** A new name p for a new inode. */
  function Create(proc: Process, fs: FS, p: Path, inode: Inode): FS
    requires p != []
  {
    Bump(proc, FS(fs.names[p := fs.next], fs.inodes[fs.next := inode], fs.next + 1, fs.tick), Parent(p))
  }

  function MkdirAll(proc: Process, fs: FS, p: Path): Result<FS, FsError>
    decreases |p|
  {
    match Lookup(fs, p)
    case Some(inode) => if inode.Dir? then Ok(fs) else Err(ENOTDIR)
    case None =>
      if p == [] then Err(ENOENT)
      else
        match MkdirAll(proc, fs, Parent(p))
        case Err(e) => Err(e)
        case Ok(made) => Ok(Create(proc, made, p, Dir(Fresh(proc, made, DIR_MODE))))
  }

  /** A file written under a temporary name in the same directory and renamed onto p. */
  function Install(proc: Process, fs: FS, p: Path, content: Bytes): Result<FS, FsError> {
    if p == [] || !IsDir(fs, Parent(p)) then Err(ENOENT)
    else if IsDir(fs, p) then Err(EISDIR)
    else
      var created := Create(proc, fs, p, File(Fresh(proc, fs, FILE_MODE), content));
      Ok(Bump(proc, created, Parent(p)))
  }

  predicate HasChild(fs: FS, p: Path) {
    exists q :: q in fs.names && q != [] && Parent(q) == p
  }

  /** os.Remove, where an absent name is no error. */
  function Remove(proc: Process, fs: FS, p: Path): Result<FS, FsError> {
    if p !in fs.names then Ok(fs)
    else if p == [] || (IsDir(fs, p) && HasChild(fs, p)) then Err(ENOTEMPTY)
    else Ok(Bump(proc, fs.(names := fs.names - {p}), Parent(p)))
  }

  function Symlink(proc: Process, fs: FS, p: Path, target: string): Result<FS, FsError> {
    if p == [] || !IsDir(fs, Parent(p)) then Err(ENOENT)
    else if p in fs.names then Err(EEXIST)
    else Ok(Create(proc, fs, p, Link(Fresh(proc, fs, 511), target)))
  }

  /** os.Link: p becomes another name of the inode `first` names. */
  function LinkTo(proc: Process, fs: FS, first: Path, p: Path): Result<FS, FsError> {
    if first !in fs.names || p == [] || !IsDir(fs, Parent(p)) then Err(ENOENT)
    else if p in fs.names then Err(EEXIST)
    else if IsDir(fs, first) then Err(EISDIR)
    else Ok(Bump(proc, fs.(names := fs.names[p := fs.names[first]]), Parent(p)))
  }

  /** chmod, chtimes and lchown all replace the attributes of the inode p names. */
  function SetMeta(fs: FS, p: Path, meta: Meta): FS {
    match Lookup(fs, p)
    case None => fs
    case Some(inode) => fs.(inodes := fs.inodes[fs.names[p] := inode.(meta := meta)])
  }

  // ---- Frames: what an operation on p leaves alone ----

  /** What p names, attributes aside. */
  function ShapeAt(fs: FS, p: Path): Option<Inode> {
    match Lookup(fs, p)
    case None => None
    case Some(inode) => Some(Shape(inode))
  }

  /**
   * From fs to after, work on p alone: other names keep their inode and its
   * shape, only directories above p are new, and attributes change only on
   * directories above p and on names sharing p's inode. The inode p ends with
   * is the one it had or a new one.
   */
  ghost predicate WorksOn(fs: FS, after: FS, p: Path) {
    && fs.next <= after.next
    && (forall q :: q in fs.names && q != p ==>
          q in after.names && after.names[q] == fs.names[q] && ShapeAt(after, q) == ShapeAt(fs, q))
    && (forall q :: q in after.names && q !in fs.names && q != p ==> q < p && IsDir(after, q))
    && (forall q :: q in fs.names && q != p && !(q < p) && !Shares(fs, q, p) ==> Lookup(after, q) == Lookup(fs, q))
    && (p in after.names ==> (p in fs.names && after.names[p] == fs.names[p]) || fs.next <= after.names[p])
  }

  lemma WorksTransitive(a: FS, b: FS, c: FS, p: Path)
    requires Valid(a) && WorksOn(a, b, p) && WorksOn(b, c, p)
    ensures WorksOn(a, c, p)
  {
    forall q | q in a.names && q != p && !(q < p) && !Shares(a, q, p) ensures Lookup(c, q) == Lookup(a, q) {
      assert !Shares(b, q, p);
    }
  }

  lemma PrefixStep(a: Path, p: Path)
    requires a < p
    ensures p != [] && a <= Parent(p)
  {
  }

  /** Everything above a name is a directory. */
  lemma {:induction false} AboveIsDir(fs: FS, p: Path, a: Path)
    requires Valid(fs) && p in fs.names && a < p
    ensures IsDir(fs, a)
    decreases |p|
  {
    PrefixStep(a, p);
    if a < Parent(p) {
      AboveIsDir(fs, Parent(p), a);
    } else {
      assert a == Parent(p);
    }
  }

  lemma BumpFacts(proc: Process, fs: FS, d: Path)
    requires Valid(fs) && IsDir(fs, d)
    ensures Valid(Bump(proc, fs, d))
    ensures Bump(proc, fs, d).names == fs.names && Bump(proc, fs, d).next == fs.next
    ensures forall q :: q != d ==> Lookup(Bump(proc, fs, d), q) == Lookup(fs, q)
    ensures forall q :: ShapeAt(Bump(proc, fs, d), q) == ShapeAt(fs, q)
  {
    var after := Bump(proc, fs, d);
    forall q | q in fs.names && q != d ensures Lookup(after, q) == Lookup(fs, q) {
      assert fs.names[q] != fs.names[d];
    }
    forall q ensures ShapeAt(after, q) == ShapeAt(fs, q) && IsDir(after, q) == IsDir(fs, q) {
      if q != d {
        assert Lookup(after, q) == Lookup(fs, q);
      }
    }
  }

  /** Naming a fresh inode p, before the directory above is stamped. */
  function Name(fs: FS, p: Path, inode: Inode): FS {
    FS(fs.names[p := fs.next], fs.inodes[fs.next := inode], fs.next + 1, fs.tick)
  }

  lemma NameFacts(fs: FS, p: Path, inode: Inode)
    requires Valid(fs) && p != [] && IsDir(fs, Parent(p)) && !IsDir(fs, p)
    ensures Valid(Name(fs, p, inode))
    ensures Lookup(Name(fs, p, inode), p) == Some(inode)
    ensures forall q :: q != p ==> Lookup(Name(fs, p, inode), q) == Lookup(fs, q)
  {
    var after := Name(fs, p, inode);
    forall q | q != p ensures Lookup(after, q) == Lookup(fs, q) && IsDir(after, q) == IsDir(fs, q) {
    }
  }

  lemma CreateFacts(proc: Process, fs: FS, p: Path, inode: Inode)
    requires Valid(fs) && p != [] && IsDir(fs, Parent(p)) && !IsDir(fs, p)
    ensures Valid(Create(proc, fs, p, inode))
    ensures Create(proc, fs, p, inode).names == fs.names[p := fs.next]
    ensures Create(proc, fs, p, inode).next == fs.next + 1
    ensures Lookup(Create(proc, fs, p, inode), p) == Some(inode)
    ensures forall q :: q != p && q != Parent(p) ==> Lookup(Create(proc, fs, p, inode), q) == Lookup(fs, q)
    ensures forall q :: q != p ==> ShapeAt(Create(proc, fs, p, inode), q) == ShapeAt(fs, q)
  {
    NameFacts(fs, p, inode);
    var named := Name(fs, p, inode);
    assert Parent(p) != p;
    BumpFacts(proc, named, Parent(p));
  }

  lemma CreateWorks(proc: Process, fs: FS, p: Path, inode: Inode)
    requires Valid(fs) && p != [] && IsDir(fs, Parent(p)) && !IsDir(fs, p)
    ensures WorksOn(fs, Create(proc, fs, p, inode), p)
  {
    CreateFacts(proc, fs, p, inode);
    assert Parent(p) < p;
  }

  /** A directory made above e is work on e. */
  lemma CreateDirWorksBelow(proc: Process, fs: FS, p: Path, meta: Meta, e: Path)
    requires Valid(fs) && p != [] && IsDir(fs, Parent(p)) && p !in fs.names && p < e
    ensures WorksOn(fs, Create(proc, fs, p, Dir(meta)), e)
  {
    CreateFacts(proc, fs, p, Dir(meta));
    assert Parent(p) < e;
  }

  /** mkdir -p on a prefix p of e: everything up to p becomes or stays a directory, nothing else is touched. */
  lemma {:induction false} MkdirAllWorks(proc: Process, fs: FS, p: Path, e: Path)
    requires Valid(fs) && p <= e && MkdirAll(proc, fs, p).Ok?
    ensures Valid(MkdirAll(proc, fs, p).value)
    ensures WorksOn(fs, MkdirAll(proc, fs, p).value, e)
    ensures IsDir(MkdirAll(proc, fs, p).value, p)
    ensures p in fs.names ==> IsDir(fs, p)
    ensures p < e && e in MkdirAll(proc, fs, p).value.names ==> e in fs.names
    ensures forall q :: !(q <= p) ==> Lookup(MkdirAll(proc, fs, p).value, q) == Lookup(fs, q)
    decreases |p|
  {
    if Lookup(fs, p).None? {
      assert p !in fs.names;
      var made := MkdirAll(proc, fs, Parent(p)).value;
      MkdirAllWorks(proc, fs, Parent(p), e);
      MkdirAllWorks(proc, fs, Parent(p), p);
      assert p !in made.names;
      var meta := Fresh(proc, made, DIR_MODE);
      CreateFacts(proc, made, p, Dir(meta));
      if p == e {
        CreateWorks(proc, made, p, Dir(meta));
      } else {
        CreateDirWorksBelow(proc, made, p, meta, e);
      }
      WorksTransitive(fs, made, MkdirAll(proc, fs, p).value, e);
    }
  }

  lemma InstallWorks(proc: Process, fs: FS, p: Path, content: Bytes)
    requires Valid(fs) && Install(proc, fs, p, content).Ok?
    ensures Valid(Install(proc, fs, p, content).value)
    ensures WorksOn(fs, Install(proc, fs, p, content).value, p)
    ensures Lookup(Install(proc, fs, p, content).value, p) == Some(File(Fresh(proc, fs, FILE_MODE), content))
    ensures Install(proc, fs, p, content).value.names == fs.names[p := fs.next]
  {
    var inode := File(Fresh(proc, fs, FILE_MODE), content);
    var created := Create(proc, fs, p, inode);
    CreateFacts(proc, fs, p, inode);
    CreateWorks(proc, fs, p, inode);
    assert Parent(p) != p && Parent(p) < p;
    BumpFacts(proc, created, Parent(p));
  }

  lemma RemoveWorks(proc: Process, fs: FS, p: Path)
    requires Valid(fs) && Remove(proc, fs, p).Ok?
    ensures Valid(Remove(proc, fs, p).value)
    ensures WorksOn(fs, Remove(proc, fs, p).value, p)
    ensures Remove(proc, fs, p).value.names == fs.names - {p}
    ensures forall q :: q != p && !(q < p) ==> Lookup(Remove(proc, fs, p).value, q) == Lookup(fs, q)
  {
    if p in fs.names {
      UnnameFacts(fs, p);
      assert Parent(p) < p;
      BumpFacts(proc, fs.(names := fs.names - {p}), Parent(p));
    } else {
      assert fs.names - {p} == fs.names;
    }
  }

  lemma UnnameFacts(fs: FS, p: Path)
    requires Valid(fs) && p in fs.names && p != [] && !(IsDir(fs, p) && HasChild(fs, p))
    ensures Valid(fs.(names := fs.names - {p}))
    ensures IsDir(fs.(names := fs.names - {p}), Parent(p))
    ensures forall q :: q != p ==> Lookup(fs.(names := fs.names - {p}), q) == Lookup(fs, q)
  {
    var gone := fs.(names := fs.names - {p});
    forall q | q != p ensures Lookup(gone, q) == Lookup(fs, q) && IsDir(gone, q) == IsDir(fs, q) {
    }
    forall q | q in gone.names && q != [] ensures IsDir(gone, Parent(q)) {
      assert Parent(q) != p;
    }
  }

  lemma SymlinkWorks(proc: Process, fs: FS, p: Path, target: string)
    requires Valid(fs) && Symlink(proc, fs, p, target).Ok?
    ensures Valid(Symlink(proc, fs, p, target).value)
    ensures WorksOn(fs, Symlink(proc, fs, p, target).value, p)
    ensures Lookup(Symlink(proc, fs, p, target).value, p) == Some(Link(Fresh(proc, fs, 511), target))
    ensures Symlink(proc, fs, p, target).value.names == fs.names[p := fs.next]
  {
    CreateFacts(proc, fs, p, Link(Fresh(proc, fs, 511), target));
    CreateWorks(proc, fs, p, Link(Fresh(proc, fs, 511), target));
  }

  lemma LinkToFacts(proc: Process, fs: FS, first: Path, p: Path)
    requires Valid(fs) && LinkTo(proc, fs, first, p).Ok?
    ensures Valid(LinkTo(proc, fs, first, p).value)
    ensures LinkTo(proc, fs, first, p).value.names == fs.names[p := fs.names[first]]
    ensures LinkTo(proc, fs, first, p).value.next == fs.next
    ensures forall q :: q != p && !(q < p) ==> Lookup(LinkTo(proc, fs, first, p).value, q) == Lookup(fs, q)
    ensures forall q :: q != p ==> ShapeAt(LinkTo(proc, fs, first, p).value, q) == ShapeAt(fs, q)
  {
    var linked := fs.(names := fs.names[p := fs.names[first]]);
    assert Parent(p) != p && Parent(p) < p;
    forall q | q != p ensures Lookup(linked, q) == Lookup(fs, q) && IsDir(linked, q) == IsDir(fs, q) {
    }
    assert !IsDir(linked, p);
    assert Valid(linked);
    BumpFacts(proc, linked, Parent(p));
  }

  lemma SetMetaWorks(fs: FS, p: Path, meta: Meta)
    requires Valid(fs) && p in fs.names
    ensures Valid(SetMeta(fs, p, meta))
    ensures WorksOn(fs, SetMeta(fs, p, meta), p)
    ensures SetMeta(fs, p, meta).names == fs.names && SetMeta(fs, p, meta).next == fs.next
    ensures Lookup(SetMeta(fs, p, meta), p) == Some(Lookup(fs, p).value.(meta := meta))
    ensures forall q :: ShapeAt(SetMeta(fs, p, meta), q) == ShapeAt(fs, q)
    ensures forall q :: !Shares(fs, q, p) ==> Lookup(SetMeta(fs, p, meta), q) == Lookup(fs, q)
  {
    var after := SetMeta(fs, p, meta);
    forall q ensures ShapeAt(after, q) == ShapeAt(fs, q) && IsDir(after, q) == IsDir(fs, q) {
    }
    forall q | !Shares(fs, q, p) ensures Lookup(after, q) == Lookup(fs, q) {
    }
    assert Valid(after);
  }

  /**
   * Work that made everything above p a directory does not change what lstat
   * says of any other path, unless that path is above p, under p, or shares
   * p's inode.
   */
  lemma {:induction false} LstatUnmoved(fs: FS, after: FS, p: Path, q: Path)
    requires Valid(fs) && Valid(after) && WorksOn(fs, after, p)
    requires p != [] && IsDir(after, Parent(p))
    requires !(q <= p) && !Shares(fs, q, p)
    requires p < q ==> IsDir(after, p) && (p in fs.names ==> IsDir(fs, p))
    ensures Lstat(after, q) == Lstat(fs, q)
    decreases |q|
  {
    hide WorksOn, Valid;
    WorksAt(fs, after, p, q);
    if q !in fs.names {
      assert q != [] && (q < p ==> q <= p) by {
        assert [] <= p;
      }
      var r := Parent(q);
      WorksAt(fs, after, p, r);
      assert p < r ==> p < q;
      if r <= p {
        assert r == p ==> p < q;
        AboveParentIsDir(after, p, r);
        NothingBlocks(fs, after, p, r);
      } else if !Shares(fs, r, p) {
        LstatUnmoved(fs, after, p, r);
      }
    }
  }

  /** What WorksOn and validity say of one path q. */
  lemma WorksAt(fs: FS, after: FS, p: Path, q: Path)
    requires Valid(fs) && Valid(after) && WorksOn(fs, after, p)
    ensures q in fs.names <==> Lookup(fs, q).Some?
    ensures q in after.names <==> Lookup(after, q).Some?
    ensures q != p && q in fs.names ==> ShapeAt(after, q) == ShapeAt(fs, q) && after.names[q] == fs.names[q]
    ensures q != p && !(q < p) ==> (q in fs.names <==> q in after.names)
    ensures q != p && !(q < p) && !Shares(fs, q, p) ==> Lookup(after, q) == Lookup(fs, q)
    ensures q != p && Shares(fs, q, p) ==> !IsDir(fs, q)
  {
  }

  lemma AboveParentIsDir(fs: FS, p: Path, r: Path)
    requires Valid(fs) && p != [] && IsDir(fs, Parent(p)) && r <= p
    ensures r == p || IsDir(fs, r)
  {
    if r != p {
      PrefixStep(r, p);
      if r != Parent(p) {
        AboveIsDir(fs, Parent(p), r);
      }
    }
  }

  lemma {:induction false} NothingBlocks(fs: FS, after: FS, p: Path, r: Path)
    requires Valid(fs) && Valid(after) && WorksOn(fs, after, p)
    requires p != [] && IsDir(after, Parent(p)) && r <= p
    requires r == p ==> (p in fs.names ==> IsDir(fs, p))
    ensures Lstat(fs, r) == Missing || (Lstat(fs, r).Present? && Lstat(fs, r).inode.Dir?)
    decreases |r|
  {
    AboveParentIsDir(after, p, r);
    if r in fs.names {
      if r != p {
        assert ShapeAt(after, r) == ShapeAt(fs, r);
      }
    } else {
      assert r != [];
      NothingBlocks(fs, after, p, Parent(r));
    }
  }
}
