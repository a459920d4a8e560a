/**
 * What one entry does to the file system, and why it never reaches a later
 * entry's path: the facts every whole-run theorem rests on.
 */
module Effects {
  import opened Prelude
  import opened FileSystem
  import opened Entries
  import opened Attributes
  import opened Itemize
  import opened Blocks
  import opened Delta
  import opened Receiver
  import opened SyncRun
  import Wire

  /** The bytes of the file p names. */
  function ContentAt(fs: FS, p: Path): Option<Bytes> {
    match Lookup(fs, p)
    case None => None
    case Some(inode) => if inode.File? then Some(inode.content) else None
  }

  /** Work on p that either did nothing or left a directory above p. */
  ghost predicate Effect(fs: FS, after: FS, p: Path) {
    && Valid(after)
    && (after == fs || (p != [] && WorksOn(fs, after, p) && IsDir(after, Parent(p))))
  }

  // ---- One entry ----

  lemma DirEffect(cfg: Config, e: FileEntry, st: State)
    requires Valid(st.fs) && !cfg.ropts.dryRun && At(cfg, e) != []
    requires ReceiveDir(cfg, e, st).Ok?
    ensures Effect(st.fs, ReceiveDir(cfg, e, st).value.fs, At(cfg, e))
    ensures IsDir(ReceiveDir(cfg, e, st).value.fs, At(cfg, e))
    ensures At(cfg, e) in st.fs.names ==> IsDir(st.fs, At(cfg, e))
  {
    var p := At(cfg, e);
    var made := MkdirAll(cfg.proc, st.fs, p).value;
    MkdirAllWorks(cfg.proc, st.fs, p, p);
    assert Parent(p) < p;
    AboveIsDir(made, p, Parent(p));
  }

  lemma SymlinkEffect(cfg: Config, e: FileEntry, st: State)
    requires Valid(st.fs) && !cfg.ropts.dryRun && At(cfg, e) != []
    requires e.kind == Symlinked && cfg.attrs.links && ReceiveSymlink(cfg, e, st).Ok?
    ensures Effect(st.fs, ReceiveSymlink(cfg, e, st).value.fs, At(cfg, e))
    ensures Linked(cfg, e, ReceiveSymlink(cfg, e, st).value.fs)
  {
    hide WorksOn, Valid;
    var p := At(cfg, e);
    var fs := st.fs;
    var made := MkdirAll(cfg.proc, fs, Parent(p)).value;
    assert Parent(p) <= p && Parent(p) != p;
    MkdirAllWorks(cfg.proc, fs, Parent(p), p);
    var placed := ApplyAttributes(cfg.proc, made, e, p, cfg.attrs).value;
    ApplyAttributesLinkWorks(cfg.proc, made, e, p, cfg.attrs);
    WorksTransitiveHere(fs, made, placed, p);
    NamedHasParent(placed, p);
  }

  lemma WorksTransitiveHere(a: FS, b: FS, c: FS, p: Path)
    requires Valid(a) && WorksOn(a, b, p) && WorksOn(b, c, p)
    ensures WorksOn(a, c, p)
  {
    WorksTransitive(a, b, c, p);
  }

  lemma NamedHasParent(fs: FS, p: Path)
    requires Valid(fs) && p in fs.names && p != []
    ensures IsDir(fs, Parent(p)) && Lookup(fs, p).Some?
  {
  }

  /** p is the entry's symlink, with its owner when that is asked for. */
  predicate Linked(cfg: Config, e: FileEntry, fs: FS) {
    && Lookup(fs, At(cfg, e)).Some?
    && Lookup(fs, At(cfg, e)).value.Link?
    && Lookup(fs, At(cfg, e)).value.target == e.target
    && OwnerAgrees(e, Lookup(fs, At(cfg, e)).value.meta, cfg.attrs)
  }

  /** p is a file with these bytes and the entry's selected attributes. */
  predicate Stored(cfg: Config, e: FileEntry, data: Bytes, fs: FS) {
    && ContentAt(fs, At(cfg, e)) == Some(data)
    && Agrees(e, Lookup(fs, At(cfg, e)).value.meta, cfg.attrs)
  }

  /** The plan's basis is the file that was there, when no partial file is used. */
  lemma PlanReadsFile(cfg: Config, e: FileEntry, fs: FS)
    requires Valid(fs) && cfg.ropts.partialDir.None? && Prepare(cfg, e, fs).Ok?
    ensures var plan := Prepare(cfg, e, fs).value;
      && !plan.usedPartial
      && plan.was == Lookup(fs, At(cfg, e))
      && plan.basis == OrEmpty(ContentAt(fs, At(cfg, e)))
      && (plan.was.Some? ==> plan.was.value.File?)
      && (plan.action == AppendSkip ==> plan.was.Some?)
  {
  }

  /** Writing an entry leaves exactly the new bytes at its path, with the selected attributes, and works on that path alone. */
  lemma CommitEffect(cfg: Config, e: FileEntry, plan: Plan, data: Bytes, fs: FS)
    requires Valid(fs) && At(cfg, e) != [] && cfg.ropts.partialDir.None? && e.kind == Regular
    requires Prepare(cfg, e, fs) == Ok(plan)
    requires plan.action == AppendSkip ==> data == plan.basis
    requires Commit(cfg, e, plan, data, fs).Ok?
    ensures Effect(fs, Commit(cfg, e, plan, data, fs).value, At(cfg, e))
    ensures Stored(cfg, e, data, Commit(cfg, e, plan, data, fs).value)
  {
    var p := At(cfg, e);
    PlanReadsFile(cfg, e, fs);
    hide WorksOn, Valid, Prepare, MkdirAll, WriteContent, ApplyPlain, Stored, ContentAt;
    var made := MkdirAll(cfg.proc, fs, Parent(p)).value;
    assert Parent(p) <= p && Parent(p) != p;
    MkdirAllWorks(cfg.proc, fs, Parent(p), p);
    var written := WriteContent(cfg, e, plan, data, made).value;
    WriteEffect(cfg, e, plan, data, fs, made);
    WorksTransitiveHere(fs, made, written, p);
    StampEffect(cfg, e, data, written);
    var done := ApplyPlain(written, e, p, cfg.attrs).value;
    WorksTransitiveHere(fs, written, done, p);
  }

  lemma StampEffect(cfg: Config, e: FileEntry, data: Bytes, fs: FS)
    requires Valid(fs) && At(cfg, e) in fs.names && At(cfg, e) != []
    requires ContentAt(fs, At(cfg, e)) == Some(data) && ApplyPlain(fs, e, At(cfg, e), cfg.attrs).Ok?
    ensures Valid(ApplyPlain(fs, e, At(cfg, e), cfg.attrs).value)
    ensures WorksOn(fs, ApplyPlain(fs, e, At(cfg, e), cfg.attrs).value, At(cfg, e))
    ensures IsDir(ApplyPlain(fs, e, At(cfg, e), cfg.attrs).value, Parent(At(cfg, e)))
    ensures Stored(cfg, e, data, ApplyPlain(fs, e, At(cfg, e), cfg.attrs).value)
  {
    var p := At(cfg, e);
    ApplyPlainWorks(fs, e, p, cfg.attrs);
    var done := ApplyPlain(fs, e, p, cfg.attrs).value;
    assert ShapeAt(done, p) == ShapeAt(fs, p);
    NamedHasParent(done, p);
  }

  lemma WriteEffect(cfg: Config, e: FileEntry, plan: Plan, data: Bytes, fs: FS, made: FS)
    requires Valid(fs) && Valid(made) && At(cfg, e) != [] && WorksOn(fs, made, At(cfg, e))
    requires At(cfg, e) in made.names ==> At(cfg, e) in fs.names
    requires !plan.usedPartial && plan.was == Lookup(fs, At(cfg, e)) && plan.basis == OrEmpty(ContentAt(fs, At(cfg, e)))
    requires plan.was.Some? ==> plan.was.value.File?
    requires MkdirAll(cfg.proc, fs, Parent(At(cfg, e))) == Ok(made)
    requires plan.action == AppendSkip ==> data == plan.basis && plan.was.Some?
    requires WriteContent(cfg, e, plan, data, made).Ok?
    ensures Valid(WriteContent(cfg, e, plan, data, made).value)
    ensures WorksOn(made, WriteContent(cfg, e, plan, data, made).value, At(cfg, e))
    ensures ContentAt(WriteContent(cfg, e, plan, data, made).value, At(cfg, e)) == Some(data)
    ensures At(cfg, e) in WriteContent(cfg, e, plan, data, made).value.names
  {
    var p := At(cfg, e);
    if MustWrite(plan, data) {
      InstallWorks(cfg.proc, made, p, data);
    } else {
      assert p in fs.names;
      NamedHasParent(fs, p);
      assert made == fs;
      WorksNothing(made, p);
    }
  }

  lemma WorksNothing(fs: FS, p: Path)
    requires Valid(fs)
    ensures WorksOn(fs, fs, p)
  {
  }

  // ---- What a regular entry ends up holding ----

  function SourceOf(job: Job, e: FileEntry): Bytes {
    if e.path in job.src then job.src[e.path] else []
  }

  /**
   * The bytes an entry's path holds afterwards, given what it held: the
   * source's, except that --append keeps what is there and adds the tail, and
   * either append mode leaves a file alone that is already as long.
   */
  function FinalContent(job: Job, e: FileEntry, was: Option<Bytes>): Bytes {
    var source := SourceOf(job, e);
    if !job.cfg.ropts.AppendMode() || was.None? then source
    else if |was.value| >= e.size then was.value
    else if job.cfg.ropts.appendVerify then source
    else if |was.value| <= |source| then was.value + source[|was.value|..]
    else was.value
  }

  /** No weak-and-strong collision between the blocks of what the entry's path holds and the source's windows. */
  ghost predicate NoCollision(job: Job, e: FileEntry, fs: FS) {
    CollisionFree(job.cfg.digest, OrEmpty(ContentAt(fs, At(job.cfg, e))), DEFAULT_BLOCK_SIZE, SourceOf(job, e))
  }

  /** The --append delta copies what the receiver holds as one block and adds the tail. */
  lemma AppendTailReplays(basis: Bytes, data: Bytes)
    requires |basis| <= |data|
    ensures AppendTailOps(|basis|, data).Ok?
    ensures Apply(basis, AppendTailOps(|basis|, data).value, |basis|) == Ok(basis + data[|basis|..])
  {
    var tail := data[|basis|..];
    var front: seq<Op> := if |basis| > 0 then [Copy(0)] else [];
    var back: seq<Op> := if tail != [] then [Data(tail)] else [];
    if |basis| > 0 {
      ApplyOne(basis, Copy(0), |basis|);
      assert basis[0 * |basis|..Min(0 * |basis| + |basis|, |basis|)] == basis;
    }
    ApplyFlush(basis, tail, |basis|);
    ApplyConcat(basis, front, back, |basis|);
  }

  lemma ReplyRebuilds(job: Job, e: FileEntry, plan: Plan, ops: seq<Op>)
    requires plan.sig == ChooseSignature(job.cfg, plan.action, plan.basis)
    requires CollisionFree(job.cfg.digest, plan.basis, DEFAULT_BLOCK_SIZE, SourceOf(job, e))
    requires ReplyOps(job.cfg, job.src, e, plan.sig, plan.action) == Ok(ops)
    ensures plan.action == AppendSkip ==> NewData(plan, ops) == Ok(plan.basis)
    ensures plan.action == AppendNone ==> NewData(plan, ops) == Ok(SourceOf(job, e))
    ensures plan.action == AppendTail ==> |plan.basis| <= |SourceOf(job, e)|
    ensures plan.action == AppendTail ==> NewData(plan, ops) == Ok(plan.basis + SourceOf(job, e)[|plan.basis|..])
  {
    match plan.action
    case AppendSkip =>
    case AppendNone => RoundTrip(job.cfg.digest, plan.basis, DEFAULT_BLOCK_SIZE, SourceOf(job, e));
    case AppendTail => AppendTailReplays(plan.basis, SourceOf(job, e));
  }

  /** What the receiver makes of the sender's answer to its own signature. */
  lemma AnswerIsFinal(job: Job, e: FileEntry, fs: FS, plan: Plan, msg: Message)
    requires Valid(fs) && job.cfg.ropts.partialDir.None? && Wire.Inverts(job.cfg.codec)
    requires Prepare(job.cfg, e, fs) == Ok(plan)
    requires NoCollision(job, e, fs)
    requires Reply(job.cfg, job.src, e, SignatureFor(e, plan)) == Ok(msg)
    ensures ReadDelta(job.cfg, e, msg).Ok?
    ensures NewData(plan, ReadDelta(job.cfg, e, msg).value) == Ok(FinalContent(job, e, ContentAt(fs, At(job.cfg, e))))
  {
    PlanReadsFile(job.cfg, e, fs);
    var ops := ReplyOps(job.cfg, job.src, e, plan.sig, plan.action).value;
    Wire.WireRoundTrip(job.cfg.codec, ops, Render(e.path), job.cfg.copts);
    ReplyRebuilds(job, e, plan, ops);
  }

  // ---- One entry of the run ----

  /** The settings under which a run writes: not dry, and no partial directory. */
  predicate Plain(cfg: Config) {
    !cfg.ropts.dryRun && cfg.ropts.partialDir.None?
  }

  /** What handling an entry does beyond its Effect, whatever the delta held. */
  ghost predicate Acts(job: Job, e: FileEntry, fs: FS, after: FS) {
    match e.kind
    case Directory => IsDir(after, At(job.cfg, e)) && (At(job.cfg, e) in fs.names ==> IsDir(fs, At(job.cfg, e)))
    case Symlinked => if job.cfg.attrs.links then Linked(job.cfg, e, after) else after == fs
    case Regular =>
      if Secondary(job.list.groups, e.path) then after == fs
      else
        && (At(job.cfg, e) in fs.names ==> IsFile(fs, At(job.cfg, e)))
        && IsFile(after, At(job.cfg, e))
        && Agrees(e, Lookup(after, At(job.cfg, e)).value.meta, job.cfg.attrs)
  }

  lemma EntryEffect(job: Job, e: FileEntry, pr: Progress)
    requires Valid(pr.st.fs) && Plain(job.cfg) && e.path != []
    requires SyncEntry(job, e, pr).Ok?
    ensures Effect(pr.st.fs, SyncEntry(job, e, pr).value.st.fs, At(job.cfg, e))
    ensures Acts(job, e, pr.st.fs, SyncEntry(job, e, pr).value.st.fs)
  {
    var cfg, fs := job.cfg, pr.st.fs;
    assert At(cfg, e) != [];
    match e.kind
    case Directory => DirEffect(cfg, e, pr.st);
    case Symlinked =>
      if cfg.attrs.links {
        SymlinkEffect(cfg, e, pr.st);
      }
    case Regular =>
      if Transfers(job.list, e) {
        TransferEffect(job, e, pr);
      }
  }

  /** The bytes a successful exchange rebuilds for an entry. */
  function Rebuilt(job: Job, e: FileEntry, fs: FS): Result<Bytes, Failure> {
    match Prepare(job.cfg, e, fs)
    case Err(x) => Err(x)
    case Ok(plan) =>
      match Reply(job.cfg, job.src, e, SignatureFor(e, plan))
      case Err(x) => Err(x)
      case Ok(msg) =>
        match ReadDelta(job.cfg, e, msg)
        case Err(x) => Err(x)
        case Ok(ops) => NewData(plan, ops)
  }

  lemma TransferEffect(job: Job, e: FileEntry, pr: Progress)
    requires Valid(pr.st.fs) && Plain(job.cfg) && e.path != []
    requires Transfers(job.list, e) && SyncEntry(job, e, pr).Ok?
    ensures Effect(pr.st.fs, SyncEntry(job, e, pr).value.st.fs, At(job.cfg, e))
    ensures At(job.cfg, e) in pr.st.fs.names ==> IsFile(pr.st.fs, At(job.cfg, e))
    ensures Rebuilt(job, e, pr.st.fs).Ok?
    ensures Stored(job.cfg, e, Rebuilt(job, e, pr.st.fs).value, SyncEntry(job, e, pr).value.st.fs)
  {
    var cfg, fs := job.cfg, pr.st.fs;
    PlanReadsFile(cfg, e, fs);
    var plan := Prepare(cfg, e, fs).value;
    var msg := Reply(cfg, job.src, e, SignatureFor(e, plan)).value;
    hide Prepare, Reply, Effect, Stored, Commit, ReadDelta, ContentAt;
    var ops := ReadDelta(cfg, e, msg).value;
    CommitEffect(cfg, e, plan, NewData(plan, ops).value, fs);
  }

  /** Without collisions, what is rebuilt is the entry's final content. */
  lemma RebuiltIsFinal(job: Job, e: FileEntry, fs: FS)
    requires Valid(fs) && job.cfg.ropts.partialDir.None? && Wire.Inverts(job.cfg.codec)
    requires NoCollision(job, e, fs) && Rebuilt(job, e, fs).Ok?
    ensures Rebuilt(job, e, fs).value == FinalContent(job, e, ContentAt(fs, At(job.cfg, e)))
  {
    hide Prepare, Reply, ReadDelta, FinalContent, NoCollision, NewData;
    var plan := Prepare(job.cfg, e, fs).value;
    AnswerIsFinal(job, e, fs, plan, Reply(job.cfg, job.src, e, SignatureFor(e, plan)).value);
  }

  // ---- What a regular entry reports and counts ----

  /** The plan, the delta and the bytes of a successful exchange. */
  datatype Exchange = Exchange(plan: Plan, ops: seq<Op>, data: Bytes)

  function Exchanged(job: Job, e: FileEntry, fs: FS): Result<Exchange, Failure> {
    match Prepare(job.cfg, e, fs)
    case Err(x) => Err(x)
    case Ok(plan) =>
      match Reply(job.cfg, job.src, e, SignatureFor(e, plan))
      case Err(x) => Err(x)
      case Ok(msg) =>
        match ReadDelta(job.cfg, e, msg)
        case Err(x) => Err(x)
        case Ok(ops) =>
          match NewData(plan, ops)
          case Err(x) => Err(x)
          case Ok(data) => Ok(Exchange(plan, ops, data))
  }

  lemma TransferReports(job: Job, e: FileEntry, pr: Progress) returns (x: Exchange, sent: nat, received: nat)
    requires Transfers(job.list, e) && SyncEntry(job, e, pr).Ok?
    ensures Exchanged(job, e, pr.st.fs) == Ok(x) && Rebuilt(job, e, pr.st.fs) == Ok(x.data)
    ensures SyncEntry(job, e, pr).value.st.lines == pr.st.lines + Report(job.cfg.ropts,
      ItemizeFile(e, x.plan.was, SizeOf(x.plan.was), job.cfg.ownerKnown, ContentChanged(x.plan, x.data), job.cfg.attrs), e)
    ensures SyncEntry(job, e, pr).value.st.stats == CountRegular(e, x.plan, x.ops, x.data,
      pr.st.stats.(bytesSent := pr.st.stats.bytesSent + sent, bytesReceived := pr.st.stats.bytesReceived + received))
  {
    hide Prepare, Reply, ReadDelta, NewData, Commit, ItemizeFile, Report, CountRegular;
    x := Exchanged(job, e, pr.st.fs).value;
    var sig := SignatureFor(e, x.plan);
    var msg := Reply(job.cfg, job.src, e, sig).value;
    sent, received := job.cfg.wireSize(sig), job.cfg.wireSize(msg);
    var counted := CountReceived(job.cfg, msg, CountSent(job.cfg, sig, pr.st));
    assert counted.stats ==
      pr.st.stats.(bytesSent := pr.st.stats.bytesSent + sent, bytesReceived := pr.st.stats.bytesReceived + received);
  }
}
