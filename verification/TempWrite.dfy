/** The steps behind one file write (internal/pipeline/partial.go): temporary file, chunks, rename, and what an abort leaves. */
module TempWrite {
  import opened Prelude
  import opened FileSystem
  import opened Entries
  import opened Receiver
  import opened Effects
  import Contents

  const CHUNK := 262144 // progressWriteChunkSize, 256 KiB

  /** os.CreateTemp beside p; tmp is the name it found free. */
  function OpenTemp(proc: Process, fs: FS, p: Path, tmp: Path): Result<FS, FsError> {
    if tmp == [] || tmp == p || Parent(tmp) != Parent(p) || !IsDir(fs, Parent(p)) then Err(ENOENT)
    else if tmp in fs.names then Err(EEXIST)
    else Ok(Create(proc, fs, tmp, File(Fresh(proc, fs, FILE_MODE), [])))
  }

  /** CreateTemp's choice of name never fails on a directory that exists. */
  ghost predicate FindsNames(proc: Process, temp: (FS, Path) -> Path) {
    forall fs, p :: p != [] && IsDir(fs, Parent(p)) ==> OpenTemp(proc, fs, p, temp(fs, p)).Ok?
  }

  /** The temporary file now holds these bytes. */
  function Fill(fs: FS, tmp: Path, bytes: Bytes): FS {
    match Lookup(fs, tmp)
    case None => fs
    case Some(inode) => fs.(inodes := fs.inodes[fs.names[tmp] := File(inode.meta, bytes)])
  }

  /** os.Rename of a file: both directories are stamped. */
  function RenameOnto(proc: Process, fs: FS, tmp: Path, p: Path): Result<FS, FsError> {
    if tmp !in fs.names || p == [] || !IsDir(fs, Parent(p)) then Err(ENOENT)
    else if IsDir(fs, p) then Err(EISDIR)
    else
      var moved := Bump(proc, fs.(names := (fs.names - {tmp})[p := fs.names[tmp]]), Parent(p));
      Ok(if Parent(tmp) == Parent(p) then moved else Bump(proc, moved, Parent(tmp)))
  }

  function RemoveQuietly(proc: Process, fs: FS, tmp: Path): FS {
    match Remove(proc, fs, tmp)
    case Ok(gone) => gone
    case Err(_) => fs
  }

  /** abandonOrKeep; `renames` says whether the rename that keeps the file goes through. */
  function AbandonOrKeep(cfg: Config, e: FileEntry, fs: FS, tmp: Path, renames: bool): FS {
    if !cfg.ropts.KeepPartial() then RemoveQuietly(cfg.proc, fs, tmp)
    else
      var target := match cfg.ropts.partialDir
        case None => At(cfg, e)
        case Some(dir) => PartialPath(At(cfg, e), dir, e.path);
      match if cfg.ropts.partialDir.None? then Ok(fs) else MkdirAll(cfg.proc, fs, Parent(target))
      case Err(_) => RemoveQuietly(cfg.proc, fs, tmp)
      case Ok(made) =>
        match RenameOnto(cfg.proc, made, tmp, target)
        case Err(_) => RemoveQuietly(cfg.proc, made, tmp)
        case Ok(kept) => if renames then kept else RemoveQuietly(cfg.proc, made, tmp)
  }

  /** Only the last fill counts. */
  lemma FillAgain(fs: FS, tmp: Path, a: Bytes, b: Bytes)
    ensures Fill(Fill(fs, tmp, a), tmp, b) == Fill(fs, tmp, b)
  {
    if Lookup(fs, tmp).Some? {
      var inode := Lookup(fs, tmp).value;
      assert fs.inodes[fs.names[tmp] := File(inode.meta, a)][fs.names[tmp] := File(inode.meta, b)] == fs.inodes[fs.names[tmp] := File(inode.meta, b)];
    }
  }

  function Stamp(inode: Inode, time: int): Inode {
    inode.(meta := inode.meta.(mtime := time))
  }

  /** Create, written out: the directory above exists, so it is stamped. */
  function Created(proc: Process, fs: FS, p: Path, inode: Inode, d: nat): FS
    requires d in fs.inodes
  {
    FS(fs.names[p := fs.next],
       fs.inodes[fs.next := inode][d := Stamp(fs.inodes[d], proc.clock(fs.tick))],
       fs.next + 1, fs.tick + 1)
  }

  lemma CreatedIs(proc: Process, fs: FS, p: Path, inode: Inode)
    requires p != [] && Lookup(fs, Parent(p)).Some? && fs.names[Parent(p)] < fs.next
    ensures Create(proc, fs, p, inode) == Created(proc, fs, p, inode, fs.names[Parent(p)])
  {
    assert Parent(p) != p;
    var named := FS(fs.names[p := fs.next], fs.inodes[fs.next := inode], fs.next + 1, fs.tick);
    assert named.names[Parent(p)] == fs.names[Parent(p)];
  }

  lemma SwapUpdates<V>(m: map<nat, V>, i: nat, j: nat, u: V, v: V, w: V)
    requires i != j
    ensures m[i := u][j := w][i := v] == m[i := v][j := w]
  {
  }

  lemma Renamed(names: map<Path, nat>, tmp: Path, p: Path, ino: nat)
    requires tmp !in names
    ensures (names[tmp := ino] - {tmp})[p := ino] == names[p := ino]
  {
    assert names[tmp := ino] - {tmp} == names;
  }

  /** Opening, filling and renaming add up to one Install. */
  lemma WriteByParts(proc: Process, fs: FS, p: Path, tmp: Path, data: Bytes)
    requires Valid(fs) && p != [] && OpenTemp(proc, fs, p, tmp).Ok?
    ensures RenameOnto(proc, Fill(OpenTemp(proc, fs, p, tmp).value, tmp, data), tmp, p) == Install(proc, fs, p, data)
  {
    var meta, d := Fresh(proc, fs, FILE_MODE), fs.names[Parent(p)];
    var begun := OpenTemp(proc, fs, p, tmp).value;
    assert d < fs.next && Parent(p) != p && Parent(p) != tmp;
    TargetIsUnmoved(proc, fs, p, tmp, data);
    hide Valid, Create, Bump;
    CreatedIs(proc, fs, tmp, File(meta, []));
    CreatedIs(proc, fs, p, File(meta, data));
    var filled := Fill(begun, tmp, data);
    SwapUpdates(fs.inodes, fs.next, d, File(meta, []), File(meta, data), Stamp(fs.inodes[d], proc.clock(fs.tick)));
    Renamed(fs.names, tmp, p, fs.next);
    assert filled.(names := (filled.names - {tmp})[p := filled.names[tmp]]) == Created(proc, fs, p, File(meta, data), d);
  }

  lemma TargetIsUnmoved(proc: Process, fs: FS, p: Path, tmp: Path, data: Bytes)
    requires Valid(fs) && p != [] && OpenTemp(proc, fs, p, tmp).Ok?
    ensures IsDir(Fill(OpenTemp(proc, fs, p, tmp).value, tmp, data), p) == IsDir(fs, p)
    ensures IsDir(Fill(OpenTemp(proc, fs, p, tmp).value, tmp, data), Parent(p))
  {
    var begun := OpenTemp(proc, fs, p, tmp).value;
    CreateFacts(proc, fs, tmp, File(Fresh(proc, fs, FILE_MODE), []));
    FilledFacts(begun, tmp, data);
    assert ShapeAt(begun, p) == ShapeAt(fs, p) && ShapeAt(begun, Parent(p)) == ShapeAt(fs, Parent(p));
  }

  lemma FilledFacts(fs: FS, tmp: Path, bytes: Bytes)
    requires Valid(fs) && IsFile(fs, tmp)
    ensures Fill(fs, tmp, bytes).names == fs.names && Fill(fs, tmp, bytes).next == fs.next && Fill(fs, tmp, bytes).tick == fs.tick
    ensures forall q :: IsDir(Fill(fs, tmp, bytes), q) == IsDir(fs, q)
    ensures forall q :: !Shares(fs, q, tmp) ==> Lookup(Fill(fs, tmp, bytes), q) == Lookup(fs, q)
    ensures ContentAt(Fill(fs, tmp, bytes), tmp) == Some(bytes)
    ensures Valid(Fill(fs, tmp, bytes))
  {
    var after := Fill(fs, tmp, bytes);
    forall q ensures IsDir(after, q) == IsDir(fs, q) {
    }
    assert Valid(after);
  }

  /** From base to fs only the name tmp is new; every other path holds what it held. */
  ghost predicate Beside(base: FS, fs: FS, tmp: Path) {
    && Valid(fs)
    && tmp in fs.names && tmp !in base.names && tmp != []
    && (forall q :: q != tmp ==> (q in fs.names <==> q in base.names) && ContentAt(fs, q) == ContentAt(base, q))
    && (forall q :: q != tmp ==> !Shares(fs, q, tmp))
    && IsFile(fs, tmp)
  }

  lemma OpenedBeside(proc: Process, base: FS, p: Path, tmp: Path)
    requires Valid(base) && OpenTemp(proc, base, p, tmp).Ok?
    ensures Beside(base, OpenTemp(proc, base, p, tmp).value, tmp)
  {
    hide Create, Valid, ContentAt, ShapeAt, Lookup, IsDir, Shares;
    var inode := File(Fresh(proc, base, FILE_MODE), []);
    assert OpenTemp(proc, base, p, tmp).value == Create(proc, base, tmp, inode);
    forall q | q != tmp
      ensures (q in Create(proc, base, tmp, inode).names <==> q in base.names)
      ensures ContentAt(Create(proc, base, tmp, inode), q) == ContentAt(base, q) && !Shares(Create(proc, base, tmp, inode), q, tmp)
    {
      CreatedBeside(proc, base, tmp, inode, q);
    }
    CreatedNew(proc, base, tmp, inode);
  }

  lemma CreatedNew(proc: Process, base: FS, tmp: Path, inode: Inode)
    requires Valid(base) && tmp != [] && IsDir(base, Parent(tmp)) && tmp !in base.names && inode.File?
    ensures Valid(Create(proc, base, tmp, inode)) && tmp in Create(proc, base, tmp, inode).names && IsFile(Create(proc, base, tmp, inode), tmp)
  {
    hide Create, Valid;
    CreateFacts(proc, base, tmp, inode);
  }

  lemma CreatedBeside(proc: Process, base: FS, tmp: Path, inode: Inode, q: Path)
    requires Valid(base) && tmp != [] && IsDir(base, Parent(tmp)) && tmp !in base.names && q != tmp
    ensures var fs := Create(proc, base, tmp, inode);
      (q in fs.names <==> q in base.names) && ContentAt(fs, q) == ContentAt(base, q) && !Shares(fs, q, tmp)
  {
    NamesAreOld(base);
    hide Create, Valid;
    CreateFacts(proc, base, tmp, inode);
    assert ShapeAt(Create(proc, base, tmp, inode), q) == ShapeAt(base, q);
  }

  lemma NamesAreOld(fs: FS)
    requires Valid(fs)
    ensures forall p :: p in fs.names ==> fs.names[p] < fs.next
  {
  }

  lemma FilledBeside(base: FS, fs: FS, tmp: Path, bytes: Bytes)
    requires Beside(base, fs, tmp)
    ensures Beside(base, Fill(fs, tmp, bytes), tmp)
    ensures ContentAt(Fill(fs, tmp, bytes), tmp) == Some(bytes)
  {
    var after := Fill(fs, tmp, bytes);
    FilledValid(fs, tmp, bytes);
    hide Valid, Fill;
    forall q | q != tmp ensures ContentAt(after, q) == ContentAt(base, q) && !Shares(after, q, tmp) {
      hide ContentAt;
      FilledAt(fs, tmp, bytes, q);
    }
  }

  lemma FilledValid(fs: FS, tmp: Path, bytes: Bytes)
    requires Valid(fs) && IsFile(fs, tmp)
    ensures Valid(Fill(fs, tmp, bytes)) && Fill(fs, tmp, bytes).names == fs.names
    ensures IsFile(Fill(fs, tmp, bytes), tmp) && ContentAt(Fill(fs, tmp, bytes), tmp) == Some(bytes)
  {
    FilledFacts(fs, tmp, bytes);
  }

  lemma FilledAt(fs: FS, tmp: Path, bytes: Bytes, q: Path)
    requires !Shares(fs, q, tmp)
    ensures ContentAt(Fill(fs, tmp, bytes), q) == ContentAt(fs, q) && !Shares(Fill(fs, tmp, bytes), q, tmp)
  {
  }

  lemma RemovedKeepsContent(proc: Process, fs: FS, tmp: Path, q: Path)
    requires q != tmp
    ensures ContentAt(RemoveQuietly(proc, fs, tmp), q) == ContentAt(fs, q)
  {
    BumpKeepsContent(proc, fs.(names := fs.names - {tmp}), Parent(tmp), q);
  }

  /** Renaming the temporary file moves its bytes to p and leaves other contents alone. */
  lemma RenamedContents(proc: Process, fs: FS, tmp: Path, p: Path, q: Path)
    requires q != tmp && RenameOnto(proc, fs, tmp, p).Ok?
    ensures ContentAt(RenameOnto(proc, fs, tmp, p).value, q) == if q == p then ContentAt(fs, tmp) else ContentAt(fs, q)
  {
    hide Bump, ContentAt, IsDir;
    var moved := fs.(names := (fs.names - {tmp})[p := fs.names[tmp]]);
    MovedContents(fs, tmp, p, q);
    BumpKeepsContent(proc, moved, Parent(p), q);
    BumpKeepsContent(proc, Bump(proc, moved, Parent(p)), Parent(tmp), q);
  }

  lemma MovedContents(fs: FS, tmp: Path, p: Path, q: Path)
    requires tmp in fs.names && q != tmp
    ensures ContentAt(fs.(names := (fs.names - {tmp})[p := fs.names[tmp]]), q) == if q == p then ContentAt(fs, tmp) else ContentAt(fs, q)
  {
  }

  lemma BumpKeepsContent(proc: Process, fs: FS, d: Path, q: Path)
    ensures ContentAt(Bump(proc, fs, d), q) == ContentAt(fs, q)
  {
  }

  /** Where abandonOrKeep puts what it keeps. */
  function KeepAt(cfg: Config, e: FileEntry): Path {
    match cfg.ropts.partialDir
    case None => At(cfg, e)
    case Some(dir) => PartialPath(At(cfg, e), dir, e.path)
  }

  /**
   * What an aborted write leaves at a path other than the temporary one: what
   * was there, or - only under --partial or with a partial directory, and only
   * where the one or the other keeps it - what had been written so far.
   */
  lemma AbortLeaves(cfg: Config, e: FileEntry, base: FS, fs: FS, tmp: Path, renames: bool, q: Path)
    requires Beside(base, fs, tmp) && q != tmp
    ensures var left := ContentAt(AbandonOrKeep(cfg, e, fs, tmp, renames), q);
      left == ContentAt(base, q) || (cfg.ropts.KeepPartial() && q == KeepAt(cfg, e) && left == ContentAt(fs, tmp))
  {
    assert Valid(fs) && ContentAt(fs, q) == ContentAt(base, q) && tmp in fs.names && IsFile(fs, tmp);
    hide Beside, Valid, MkdirAll, RenameOnto, ContentAt, PartialPath, RemoveQuietly;
    RemovedKeepsContent(cfg.proc, fs, tmp, q);
    if cfg.ropts.KeepPartial() {
      var target := KeepAt(cfg, e);
      var made := if cfg.ropts.partialDir.None? then Ok(fs) else MkdirAll(cfg.proc, fs, Parent(target));
      if made.Ok? {
        if cfg.ropts.partialDir.Some? {
          Contents.MkdirKeepsContent(cfg.proc, fs, Parent(target), q);
          Contents.MkdirKeepsContent(cfg.proc, fs, Parent(target), tmp);
        }
        RemovedKeepsContent(cfg.proc, made.value, tmp, q);
        if RenameOnto(cfg.proc, made.value, tmp, target).Ok? {
          RenamedContents(cfg.proc, made.value, tmp, target, q);
        }
      }
    }
  }
}
