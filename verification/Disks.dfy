/**
 * The calls that change the destination, in the form the source makes them:
 * step by step on one file system (internal/sync/attributes.go, hardlinks.go,
 * internal/pipeline/partial.go). Each is proved against its specification.
 */
module Disks {
  import opened Prelude
  import opened FileSystem
  import opened Entries
  import opened Attributes
  import opened Receiver
  import opened TempWrite
  import opened Keeping

  /** The file system as the receiving process sees it. */
  class Disk {
    const proc: Process
    var fs: FS

    constructor (proc: Process, fs: FS)
      ensures this.proc == proc && this.fs == fs
    {
      this.proc := proc;
      this.fs := fs;
    }

    /** A system call: its new file system, or an error and the old one. */
    method Call(outcome: Result<FS, FsError>) returns (ok: bool)
      modifies this
      ensures ok == outcome.Ok?
      ensures fs == if outcome.Ok? then outcome.value else old(fs)
    {
      if outcome.Ok? {
        fs := outcome.value;
      }
      return outcome.Ok?;
    }

    /** os.Chmod and os.Chtimes follow a link, and fail on what is not there. */
    method Change(p: Path, meta: Meta) returns (r: Result<(), FsError>)
      modifies this
      ensures r == (match Lookup(old(fs), p)
                    case None => Err(ENOENT)
                    case Some(inode) => if inode.Link? then Err(ELOOP) else Ok(()))
      ensures fs == if r.Ok? then SetMeta(old(fs), p, meta) else old(fs)
    {
      match Lookup(fs, p)
      case None => return Err(ENOENT);
      case Some(inode) =>
        if inode.Link? {
          return Err(ELOOP);
        }
        fs := SetMeta(fs, p, meta);
        return Ok(());
    }

    /** os.Lchown changes a link itself. */
    method Lchown(p: Path, meta: Meta) returns (r: Result<(), FsError>)
      modifies this
      ensures r == if Lookup(old(fs), p).None? then Err(ENOENT) else Ok(())
      ensures fs == if r.Ok? then SetMeta(old(fs), p, meta) else old(fs)
    {
      if Lookup(fs, p).None? {
        return Err(ENOENT);
      }
      fs := SetMeta(fs, p, meta);
      return Ok(());
    }
  }

  function MetaAt(fs: FS, p: Path): Meta {
    if Lookup(fs, p).Some? then Lookup(fs, p).value.meta else Meta(0, 0, 0, 0)
  }

  lemma SameMeta(inode: Inode)
    ensures inode.(meta := inode.meta) == inode
  {
    match inode
    case File(_, _) =>
    case Dir(_) =>
    case Link(_, _) =>
  }

  lemma SetMetaTwice(fs: FS, p: Path, a: Meta, b: Meta)
    ensures SetMeta(SetMeta(fs, p, a), p, b) == SetMeta(fs, p, b)
    ensures Lookup(SetMeta(fs, p, a), p) == (if Lookup(fs, p).None? then None else Some(Lookup(fs, p).value.(meta := a)))
    ensures SetMeta(fs, p, MetaAt(fs, p)) == fs
  {
    if Lookup(fs, p).Some? {
      var i, inode := fs.names[p], Lookup(fs, p).value;
      assert fs.inodes[i := inode.(meta := a)][i := inode.(meta := b)] == fs.inodes[i := inode.(meta := b)];
      SameMeta(inode);
      assert fs.inodes[i := inode] == fs.inodes;
    }
  }

  /** applyOwnership. */
  method ApplyOwnership(disk: Disk, e: FileEntry, p: Path, opts: AttrOptions) returns (r: Result<(), AttrError>)
    modifies disk
    ensures match ApplyLinkOwner(old(disk.fs), e, p, opts)
            case Ok(after) => r == Ok(()) && disk.fs == after
            case Err(x) => r == Err(x) && disk.fs == old(disk.fs)
  {
    SetMetaTwice(disk.fs, p, MetaAt(disk.fs, p), MetaAt(disk.fs, p));
    if (!opts.owner && !opts.group) || !e.ownership {
      return Ok(());
    }
    var done := disk.Lchown(p, WithOwnership(e, opts, MetaAt(disk.fs, p)));
    if done.Err? {
      return Err(SystemCall(done.error));
    }
    return Ok(());
  }

  /** What applySymlink leaves even when it fails: the old name may be gone. */
  function SymlinkLeaves(proc: Process, fs: FS, e: FileEntry, p: Path): FS {
    if e.target == "" then fs
    else
      match Remove(proc, fs, p)
      case Err(_) => fs
      case Ok(gone) =>
        match Symlink(proc, gone, p, e.target)
        case Err(_) => gone
        case Ok(linked) => linked
  }

  /** What ApplyAttributes leaves, whether it fails or not. */
  function AttributesLeave(proc: Process, fs: FS, e: FileEntry, p: Path, opts: AttrOptions): FS {
    match ApplyAttributes(proc, fs, e, p, opts)
    case Ok(after) => after
    case Err(_) => if e.kind == Symlinked && opts.links then SymlinkLeaves(proc, fs, e, p) else fs
  }

  method ApplySymlinkTo(disk: Disk, e: FileEntry, p: Path) returns (r: Result<(), AttrError>)
    modifies disk
    ensures match ApplySymlink(disk.proc, old(disk.fs), e, p)
            case Ok(after) => r == Ok(()) && disk.fs == after
            case Err(x) => r == Err(x) && disk.fs == SymlinkLeaves(disk.proc, old(disk.fs), e, p)
  {
    if e.target == "" {
      return Err(NoLinkTarget);
    }
    var removed := Remove(disk.proc, disk.fs, p);
    var ok := disk.Call(removed);
    if !ok {
      return Err(SystemCall(removed.error));
    }
    var linked := Symlink(disk.proc, disk.fs, p, e.target);
    ok := disk.Call(linked);
    if !ok {
      return Err(SystemCall(linked.error));
    }
    return Ok(());
  }

  /** ApplyAttributes on a file or directory: mode, then times, then owner. */
  method ApplyPlainTo(disk: Disk, e: FileEntry, p: Path, opts: AttrOptions) returns (r: Result<(), AttrError>)
    modifies disk
    ensures match ApplyPlain(old(disk.fs), e, p, opts)
            case Ok(after) => r == Ok(()) && disk.fs == after
            case Err(x) => r == Err(x) && disk.fs == old(disk.fs)
  {
    var was := MetaAt(disk.fs, p);
    ghost var start := disk.fs;
    SetMetaTwice(start, p, was, was);
    if opts.perms {
      var done := disk.Change(p, was.(mode := Perm(e.mode)));
      if done.Err? {
        return Err(SystemCall(done.error));
      }
    }
    ghost var m1 := WithPerms(e, opts, was);
    SetMetaTwice(start, p, m1, m1);
    assert disk.fs == SetMeta(start, p, m1);
    if opts.times {
      var done := disk.Change(p, MetaAt(disk.fs, p).(mtime := e.mtime));
      if done.Err? {
        return Err(SystemCall(done.error));
      }
    }
    ghost var m2 := WithTimes(e, opts, m1);
    SetMetaTwice(start, p, m1, m2);
    SetMetaTwice(start, p, m2, WithOwnership(e, opts, m2));
    assert disk.fs == SetMeta(start, p, m2);
    r := ApplyOwnership(disk, e, p, opts);
  }

  /** ApplyAttributes. */
  method Apply(disk: Disk, e: FileEntry, p: Path, opts: AttrOptions) returns (r: Result<(), AttrError>)
    modifies disk
    ensures match ApplyAttributes(disk.proc, old(disk.fs), e, p, opts)
            case Ok(after) => r == Ok(()) && disk.fs == after
            case Err(x) => r == Err(x) && disk.fs == AttributesLeave(disk.proc, old(disk.fs), e, p, opts)
  {
    if e.kind == Symlinked {
      if opts.links {
        r := ApplySymlinkTo(disk, e, p);
        if r.Err? {
          return;
        }
      }
      r := ApplyOwnership(disk, e, p, opts);
    } else {
      r := ApplyPlainTo(disk, e, p, opts);
    }
  }

  // ---- Hard links ----

  /** What relinking one member leaves: nothing changed, or the parents made, or the name gone, or all of it. */
  function MemberLeaves(cfg: Config, first: Path, member: Path, fs: FS): FS {
    match MkdirAll(cfg.proc, fs, Parent(cfg.dest + member))
    case Err(_) => fs
    case Ok(made) =>
      match Remove(cfg.proc, made, cfg.dest + member)
      case Err(_) => made
      case Ok(gone) =>
        match LinkTo(cfg.proc, gone, cfg.dest + first, cfg.dest + member)
        case Err(_) => gone
        case Ok(linked) => linked
  }

  /** What relinking members 1 up to k leaves: it stops at the first that fails. */
  function GroupLeaves(cfg: Config, g: Group, k: nat, fs: FS): FS
    requires k <= |g|
  {
    if k <= 1 then fs
    else
      match LinkGroup(cfg, g, k - 1, fs)
      case Err(_) => GroupLeaves(cfg, g, k - 1, fs)
      case Ok(linked) => MemberLeaves(cfg, g[0], g[k - 1], linked)
  }

  /** One member relinked. */
  method Relink(disk: Disk, cfg: Config, first: Path, member: Path) returns (r: Result<(), Failure>)
    requires disk.proc == cfg.proc
    modifies disk
    ensures match LinkMember(cfg, first, member, old(disk.fs))
            case Ok(after) => r == Ok(()) && disk.fs == after
            case Err(x) => r == Err(x) && disk.fs == MemberLeaves(cfg, first, member, old(disk.fs))
  {
    hide MkdirAll, Remove, LinkTo;
    var dest := cfg.dest + member;
    var made := MkdirAll(cfg.proc, disk.fs, Parent(dest));
    var ok := disk.Call(made);
    if !ok {
      return Err(System(made.error));
    }
    var gone := Remove(cfg.proc, disk.fs, dest);
    ok := disk.Call(gone);
    if !ok {
      return Err(System(gone.error));
    }
    var linked := LinkTo(cfg.proc, disk.fs, cfg.dest + first, dest);
    ok := disk.Call(linked);
    if !ok {
      return Err(System(linked.error));
    }
    return Ok(());
  }

  /** ApplyHardLinks on one group. */
  method ApplyHardLinks(disk: Disk, cfg: Config, group: Group) returns (r: Result<(), Failure>)
    requires disk.proc == cfg.proc
    modifies disk
    ensures match LinkGroup(cfg, group, |group|, old(disk.fs))
            case Ok(after) => r == Ok(()) && disk.fs == after
            case Err(x) => r == Err(x) && disk.fs == GroupLeaves(cfg, group, |group|, old(disk.fs))
  {
    hide LinkMember, MemberLeaves;
    if |group| < 2 {
      return Ok(());
    }
    for n := 1 to |group|
      invariant LinkGroup(cfg, group, n, old(disk.fs)) == Ok(disk.fs)
    {
      r := Relink(disk, cfg, group[0], group[n]);
      if r.Err? {
        LinkStops(cfg, group, n + 1, |group|, old(disk.fs));
        return;
      }
    }
    return Ok(());
  }

  /** A group that fails at one member fails. */
  lemma {:induction false} LinkStops(cfg: Config, group: Group, k: nat, n: nat, fs: FS)
    requires k <= n <= |group| && LinkGroup(cfg, group, k, fs).Err?
    ensures LinkGroup(cfg, group, n, fs) == LinkGroup(cfg, group, k, fs)
    ensures GroupLeaves(cfg, group, n, fs) == GroupLeaves(cfg, group, k, fs)
    decreases n
  {
    hide LinkMember, MemberLeaves;
    if k < n {
      LinkStops(cfg, group, k, n - 1, fs);
    }
  }

  // ---- Writing a file ----

  /** How many of the bytes reach a disk on which `room` more fit; None is a disk that does not fill up. */
  function Fitting(data: Bytes, room: Option<nat>): (n: nat)
    ensures n <= |data|
  {
    if room.None? || |data| <= room.value then |data| else room.value
  }

  /** What one file write leaves: the file installed, or the error with --partial's choice carried out. */
  function WriteLeaves(cfg: Config, e: FileEntry, fs: FS, data: Bytes, tmp: Path, room: Option<nat>): Result<FS, FS> {
    match OpenTemp(cfg.proc, fs, At(cfg, e), tmp)
    case Err(_) => Err(fs)
    case Ok(begun) =>
      var n := Fitting(data, room);
      if n < |data| then Err(AbandonOrKeep(cfg, e, Fill(begun, tmp, data[..n]), tmp, true))
      else
        match RenameOnto(cfg.proc, Fill(begun, tmp, data), tmp, At(cfg, e))
        case Ok(renamed) => Ok(renamed)
        case Err(_) => Err(AbandonOrKeep(cfg, e, Fill(begun, tmp, data), tmp, true))
  }

  /** The write loop: whole when no progress is shown or the file is small, in chunks otherwise; it stops where a write fails. */
  method FillTemp(disk: Disk, tmp: Path, data: Bytes, progress: bool, room: Option<nat>) returns (ok: bool)
    modifies disk
    ensures ok == (Fitting(data, room) == |data|)
    ensures disk.fs == Fill(old(disk.fs), tmp, data[..Fitting(data, room)])
  {
    hide Fill;
    var fits := Fitting(data, room);
    if !progress || |data| <= CHUNK {
      disk.fs := Fill(disk.fs, tmp, data[..fits]);
      return fits == |data|;
    }
    var written := 0;
    while written < |data|
      invariant 0 <= written <= fits
      invariant disk.fs == if written == 0 then old(disk.fs) else Fill(old(disk.fs), tmp, data[..written])
    {
      var end := if written + CHUNK > |data| then |data| else written + CHUNK;
      var reached := if end <= fits then end else fits;
      FillAgain(old(disk.fs), tmp, data[..written], data[..reached]);
      disk.fs := Fill(disk.fs, tmp, data[..reached]);
      written := reached;
      if reached < end {
        return false;
      }
    }
    return true;
  }

  /** writeToTempFileWithProgress and finishRegularFileWrite. */
  method WriteFile(disk: Disk, cfg: Config, e: FileEntry, data: Bytes, tmp: Path, progress: bool, room: Option<nat>) returns (ok: bool)
    requires disk.proc == cfg.proc
    modifies disk
    ensures match WriteLeaves(cfg, e, old(disk.fs), data, tmp, room)
            case Ok(after) => ok && disk.fs == after
            case Err(after) => !ok && disk.fs == after
    ensures OpenTemp(cfg.proc, old(disk.fs), At(cfg, e), tmp).Err? ==> !ok && disk.fs == old(disk.fs)
    ensures Valid(old(disk.fs)) && e.path != [] && OpenTemp(cfg.proc, old(disk.fs), At(cfg, e), tmp).Ok? && !ok ==>
      if KeepableBeside(cfg, e, old(disk.fs), tmp)
      then PartialKept(old(disk.fs), disk.fs, tmp, KeepAt(cfg, e), data[..Fitting(data, room)])
      else NoTrace(old(disk.fs), disk.fs)
  {
    hide Valid, OpenTemp, Fill, RenameOnto, AbandonOrKeep, KeepableBeside, PartialKept, NoTrace;
    if Valid(disk.fs) && e.path != [] && OpenTemp(cfg.proc, disk.fs, At(cfg, e), tmp).Ok? {
      FailedWriteIs(cfg, e, disk.fs, tmp, data[..Fitting(data, room)]);
    }
    var begun := OpenTemp(cfg.proc, disk.fs, At(cfg, e), tmp);
    ok := disk.Call(begun);
    if !ok {
      return;
    }
    ok := FillTemp(disk, tmp, data, progress, room);
    assert data[..|data|] == data;
    if ok {
      var renamed := RenameOnto(cfg.proc, disk.fs, tmp, At(cfg, e));
      ok := disk.Call(renamed);
    }
    if !ok {
      disk.fs := AbandonOrKeep(cfg, e, disk.fs, tmp, true);
    }
  }

  /** On a disk with room for it a write by parts is one Install, however the bytes are cut up. */
  lemma WriteIsInstall(cfg: Config, e: FileEntry, fs: FS, data: Bytes, tmp: Path, room: Option<nat>)
    requires Valid(fs) && At(cfg, e) != [] && OpenTemp(cfg.proc, fs, At(cfg, e), tmp).Ok?
    ensures WriteLeaves(cfg, e, fs, data, tmp, room).Ok? <==> Fitting(data, room) == |data| && Install(cfg.proc, fs, At(cfg, e), data).Ok?
    ensures WriteLeaves(cfg, e, fs, data, tmp, room).Ok? ==>
      WriteLeaves(cfg, e, fs, data, tmp, room).value == Install(cfg.proc, fs, At(cfg, e), data).value
  {
    hide Valid, OpenTemp, Fill, RenameOnto, Install, AbandonOrKeep;
    WriteByParts(cfg.proc, fs, At(cfg, e), tmp, data);
  }
}
