/** Attribute preservation (internal/sync/attributes.go) over the abstract file system. */
module Attributes {
  import opened Prelude
  import opened FileSystem
  import opened Entries

  datatype AttrError = SystemCall(code: FsError) | NoLinkTarget

  function WithPerms(e: FileEntry, opts: AttrOptions, meta: Meta): Meta {
    if opts.perms then meta.(mode := Perm(e.mode)) else meta
  }

  function WithTimes(e: FileEntry, opts: AttrOptions, meta: Meta): Meta {
    if opts.times then meta.(mtime := e.mtime) else meta
  }

  /** Ownership that was not available at the source is left alone rather than claimed for root. */
  function WithOwnership(e: FileEntry, opts: AttrOptions, meta: Meta): Meta {
    if !e.ownership then meta
    else
      meta.(uid := if opts.owner then e.uid else meta.uid, gid := if opts.group then e.gid else meta.gid)
  }

  function ApplyPlain(fs: FS, e: FileEntry, p: Path, opts: AttrOptions): Result<FS, AttrError> {
    match Lookup(fs, p)
    case None => if opts.perms || opts.times || ((opts.owner || opts.group) && e.ownership) then Err(SystemCall(ENOENT)) else Ok(fs)
    case Some(inode) =>
      if inode.Link? && (opts.perms || opts.times) then Err(SystemCall(ELOOP))
      else Ok(SetMeta(fs, p, WithOwnership(e, opts, WithTimes(e, opts, WithPerms(e, opts, inode.meta)))))
  }

  /** Replaces whatever p names by a symlink to the entry's target. */
  function ApplySymlink(proc: Process, fs: FS, e: FileEntry, p: Path): Result<FS, AttrError> {
    if e.target == "" then Err(NoLinkTarget)
    else
      match Remove(proc, fs, p)
      case Err(code) => Err(SystemCall(code))
      case Ok(gone) =>
        match Symlink(proc, gone, p, e.target)
        case Err(code) => Err(SystemCall(code))
        case Ok(linked) => Ok(linked)
  }

  function ApplyLinkOwner(fs: FS, e: FileEntry, p: Path, opts: AttrOptions): Result<FS, AttrError> {
    match Lookup(fs, p)
    case None => if (opts.owner || opts.group) && e.ownership then Err(SystemCall(ENOENT)) else Ok(fs)
    case Some(inode) => Ok(SetMeta(fs, p, WithOwnership(e, opts, inode.meta)))
  }

  function ApplyAttributes(proc: Process, fs: FS, e: FileEntry, p: Path, opts: AttrOptions): Result<FS, AttrError> {
    if e.kind == Symlinked then
      if opts.links then
        match ApplySymlink(proc, fs, e, p)
        case Err(x) => Err(x)
        case Ok(linked) => ApplyLinkOwner(linked, e, p, opts)
      else ApplyLinkOwner(fs, e, p, opts)
    else ApplyPlain(fs, e, p, opts)
  }

  /** Whether the selected attributes of an inode are those of the entry. */
  predicate Agrees(e: FileEntry, meta: Meta, opts: AttrOptions) {
    && (opts.perms ==> meta.mode == Perm(e.mode))
    && (opts.times ==> meta.mtime == e.mtime)
    && OwnerAgrees(e, meta, opts)
  }

  predicate OwnerAgrees(e: FileEntry, meta: Meta, opts: AttrOptions) {
    && (opts.owner && e.ownership ==> meta.uid == e.uid)
    && (opts.group && e.ownership ==> meta.gid == e.gid)
  }

  /** On a file or directory: only p's inode changes, only its attributes, and the selected ones become the entry's. */
  lemma ApplyPlainWorks(fs: FS, e: FileEntry, p: Path, opts: AttrOptions)
    requires Valid(fs) && p in fs.names && ApplyPlain(fs, e, p, opts).Ok?
    ensures Valid(ApplyPlain(fs, e, p, opts).value)
    ensures WorksOn(fs, ApplyPlain(fs, e, p, opts).value, p)
    ensures ApplyPlain(fs, e, p, opts).value.names == fs.names
    ensures forall q :: ShapeAt(ApplyPlain(fs, e, p, opts).value, q) == ShapeAt(fs, q)
    ensures forall q :: !Shares(fs, q, p) ==> Lookup(ApplyPlain(fs, e, p, opts).value, q) == Lookup(fs, q)
    ensures Lookup(ApplyPlain(fs, e, p, opts).value, p).Some?
    ensures Agrees(e, Lookup(ApplyPlain(fs, e, p, opts).value, p).value.meta, opts)
  {
    var meta := Lookup(fs, p).value.meta;
    SetMetaWorks(fs, p, WithOwnership(e, opts, WithTimes(e, opts, WithPerms(e, opts, meta))));
  }

  /** Attributes that already agree are not changed by being applied again. */
  lemma ApplyPlainAgain(fs: FS, e: FileEntry, p: Path, opts: AttrOptions)
    requires Valid(fs) && p in fs.names && Lookup(fs, p).Some? && !Lookup(fs, p).value.Link?
    requires Agrees(e, Lookup(fs, p).value.meta, opts)
    ensures ApplyPlain(fs, e, p, opts) == Ok(fs)
  {
    var inode := Lookup(fs, p).value;
    match inode {
      case File(meta, content) =>
      case Dir(meta) =>
    }
    assert fs.inodes[fs.names[p] := inode] == fs.inodes;
  }

  lemma ApplyAttributesLinkWorks(proc: Process, fs: FS, e: FileEntry, p: Path, opts: AttrOptions)
    requires Valid(fs) && e.kind == Symlinked && opts.links && ApplyAttributes(proc, fs, e, p, opts).Ok?
    ensures Valid(ApplyAttributes(proc, fs, e, p, opts).value)
    ensures WorksOn(fs, ApplyAttributes(proc, fs, e, p, opts).value, p)
    ensures Lookup(ApplyAttributes(proc, fs, e, p, opts).value, p).Some?
    ensures var inode := Lookup(ApplyAttributes(proc, fs, e, p, opts).value, p).value;
      inode.Link? && inode.target == e.target && OwnerAgrees(e, inode.meta, opts)
    ensures p in ApplyAttributes(proc, fs, e, p, opts).value.names && fs.next <= ApplyAttributes(proc, fs, e, p, opts).value.names[p]
  {
    hide WorksOn, Valid;
    var gone := Remove(proc, fs, p).value;
    RemoveWorks(proc, fs, p);
    var linked := Symlink(proc, gone, p, e.target).value;
    SymlinkWorks(proc, gone, p, e.target);
    WorksTransitive(fs, gone, linked, p);
    SetMetaWorks(linked, p, WithOwnership(e, opts, Lookup(linked, p).value.meta));
    WorksTransitive(fs, linked, ApplyAttributes(proc, fs, e, p, opts).value, p);
    NextGrows(fs, gone, p);
  }

  lemma NextGrows(fs: FS, after: FS, p: Path)
    requires WorksOn(fs, after, p)
    ensures fs.next <= after.next
  {
  }
}
