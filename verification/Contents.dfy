/**
 * What each entry of a run does to the bytes at any path, with a partial
 * directory or without, and whatever else names the same inodes.
 */
module Contents {
  import opened Prelude
  import opened FileSystem
  import opened Entries
  import opened Delta
  import opened Receiver
  import opened SyncRun
  import opened Effects
  import Blocks
  import Attributes
  import Wire

  // ---- The tree stays a tree ----

  lemma PlainValid(fs: FS, e: FileEntry, p: Path, opts: AttrOptions)
    requires Valid(fs) && Attributes.ApplyPlain(fs, e, p, opts).Ok?
    ensures Valid(Attributes.ApplyPlain(fs, e, p, opts).value)
  {
    hide Valid;
    if Lookup(fs, p).Some? {
      Attributes.ApplyPlainWorks(fs, e, p, opts);
    }
  }

  lemma CommitValid(cfg: Config, e: FileEntry, plan: Plan, data: Bytes, fs: FS)
    requires Valid(fs) && e.kind == Regular && Commit(cfg, e, plan, data, fs).Ok?
    ensures Valid(Commit(cfg, e, plan, data, fs).value)
  {
    hide Valid, WorksOn, Attributes.ApplyPlain, MkdirAll, Install, Remove;
    var p := At(cfg, e);
    var made := MkdirAll(cfg.proc, fs, Parent(p)).value;
    MkdirAllWorks(cfg.proc, fs, Parent(p), Parent(p));
    if MustWrite(plan, data) {
      var installed := Install(cfg.proc, made, p, data).value;
      InstallWorks(cfg.proc, made, p, data);
      DropValid(cfg, e, plan, installed);
    }
    PlainValid(WriteContent(cfg, e, plan, data, made).value, e, p, cfg.attrs);
  }

  lemma DropValid(cfg: Config, e: FileEntry, plan: Plan, fs: FS)
    requires Valid(fs)
    ensures Valid(DropPartial(cfg, e, plan, fs))
  {
    hide Valid, WorksOn;
    if plan.usedPartial && cfg.ropts.partialDir.Some? {
      var partial := PartialPath(At(cfg, e), cfg.ropts.partialDir.value, e.path);
      if Remove(cfg.proc, fs, partial).Ok? {
        RemoveWorks(cfg.proc, fs, partial);
      }
    }
  }

  lemma LocalValid(cfg: Config, e: FileEntry, st: State)
    requires Valid(st.fs) && ReceiveLocal(cfg, e, st).Ok?
    ensures Valid(ReceiveLocal(cfg, e, st).value.fs)
  {
    hide Valid, WorksOn, MkdirAll, Attributes.ApplyAttributes;
    var p := At(cfg, e);
    if !cfg.ropts.dryRun && e.kind == Directory {
      MkdirAllWorks(cfg.proc, st.fs, p, p);
    }
    if !cfg.ropts.dryRun && e.kind == Symlinked && cfg.attrs.links {
      MkdirAllWorks(cfg.proc, st.fs, Parent(p), Parent(p));
      Attributes.ApplyAttributesLinkWorks(cfg.proc, MkdirAll(cfg.proc, st.fs, Parent(p)).value, e, p, cfg.attrs);
    }
  }

  /** Every run keeps the file system a tree, with partial directories, dry or not. */
  lemma {:induction false} AfterIsValid(job: Job, start: FS, k: nat)
    requires Valid(start) && k <= |job.list.entries| && After(job, start, k).Ok?
    ensures Valid(After(job, start, k).value.st.fs)
  {
    hide Valid, Prepare, Reply, ReadDelta, NewData, Commit, ReceiveLocal;
    if k > 0 {
      AfterIsValid(job, start, k - 1);
      var pr, e := After(job, start, k - 1).value, Entry(job, k - 1);
      if !Transfers(job.list, e) {
        LocalValid(job.cfg, e, pr.st);
      } else if !job.cfg.ropts.dryRun {
        var plan := Prepare(job.cfg, e, pr.st.fs).value;
        var msg := Reply(job.cfg, job.src, e, SignatureFor(e, plan)).value;
        CommitValid(job.cfg, e, plan, NewData(plan, ReadDelta(job.cfg, e, msg).value).value, pr.st.fs);
      }
    }
  }

  // ---- System calls and contents ----

  /** Work on p leaves the contents of other names. */
  lemma WorkKeepsContent(fs: FS, after: FS, p: Path, q: Path)
    requires Valid(fs) && WorksOn(fs, after, p) && q != p
    ensures ContentAt(after, q) == ContentAt(fs, q)
  {
    if q in fs.names {
      assert ShapeAt(after, q) == ShapeAt(fs, q);
    }
  }

  lemma MkdirKeepsContent(proc: Process, fs: FS, p: Path, q: Path)
    requires Valid(fs) && MkdirAll(proc, fs, p).Ok?
    ensures ContentAt(MkdirAll(proc, fs, p).value, q) == ContentAt(fs, q)
    ensures Valid(MkdirAll(proc, fs, p).value)
  {
    hide Valid, MkdirAll, WorksOn;
    MkdirAllWorks(proc, fs, p, p);
    if q != p {
      WorkKeepsContent(fs, MkdirAll(proc, fs, p).value, p, q);
    }
  }

  lemma InstallKeepsContent(proc: Process, fs: FS, p: Path, data: Bytes, q: Path)
    requires Valid(fs) && Install(proc, fs, p, data).Ok?
    ensures ContentAt(Install(proc, fs, p, data).value, q) == if q == p then Some(data) else ContentAt(fs, q)
  {
    hide Valid, Install, WorksOn;
    InstallWorks(proc, fs, p, data);
    if q != p {
      WorkKeepsContent(fs, Install(proc, fs, p, data).value, p, q);
    }
  }

  lemma PlainKeepsContent(fs: FS, e: FileEntry, p: Path, opts: AttrOptions, q: Path)
    requires Attributes.ApplyPlain(fs, e, p, opts).Ok?
    ensures ContentAt(Attributes.ApplyPlain(fs, e, p, opts).value, q) == ContentAt(fs, q)
  {
    hide Attributes.WithOwnership, Attributes.WithTimes, Attributes.WithPerms;
  }

  // ---- The basis of the delta ----

  /** Where an entry's partial file lies. */
  function Spot(cfg: Config, e: FileEntry): Path
    requires cfg.ropts.partialDir.Some?
  {
    PartialPath(At(cfg, e), cfg.ropts.partialDir.value, e.path)
  }

  /** The partial file that serves as the basis; the append modes never use one. */
  function PartialBasis(cfg: Config, e: FileEntry, fs: FS): Option<Bytes> {
    if cfg.ropts.partialDir.Some? && !cfg.ropts.AppendMode() then ContentAt(fs, Spot(cfg, e)) else None
  }

  /** What the delta of an entry is taken against. */
  function BasisOf(cfg: Config, e: FileEntry, fs: FS): Bytes {
    match PartialBasis(cfg, e, fs)
    case Some(bytes) => bytes
    case None => OrEmpty(ContentAt(fs, At(cfg, e)))
  }

  /** No digest collision between the basis in use and the source. */
  ghost predicate NoCollisionOn(job: Job, e: FileEntry, fs: FS) {
    CollisionFree(job.cfg.digest, BasisOf(job.cfg, e, fs), Blocks.DEFAULT_BLOCK_SIZE, SourceOf(job, e))
  }

  lemma ReadIsContent(fs: FS, p: Path)
    ensures (match ReadFile(fs, p) case Ok(data) => data case Err(_) => None) == ContentAt(fs, p)
  {
  }

  lemma PlanIs(cfg: Config, e: FileEntry, fs: FS)
    requires Prepare(cfg, e, fs).Ok?
    ensures var plan := Prepare(cfg, e, fs).value;
      && plan.was == Lookup(fs, At(cfg, e))
      && plan.usedPartial == PartialBasis(cfg, e, fs).Some?
      && plan.basis == BasisOf(cfg, e, fs)
      && plan.action == ChooseAction(cfg, e, plan.was.Some?, plan.basis)
      && plan.sig == ChooseSignature(cfg, plan.action, plan.basis)
      && (plan.was.Some? && !plan.usedPartial ==> plan.was.value.File?)
  {
    if cfg.ropts.partialDir.Some? {
      ReadIsContent(fs, Spot(cfg, e));
    }
    ReadIsContent(fs, At(cfg, e));
    hide Blocks.Sign, Parent;
  }

  /** Without a collision on the basis in use, what is rebuilt is the entry's final content. */
  lemma AnswerLands(job: Job, e: FileEntry, fs: FS, plan: Plan, msg: Message)
    requires Wire.Inverts(job.cfg.codec) && NoCollisionOn(job, e, fs)
    requires Prepare(job.cfg, e, fs) == Ok(plan)
    requires Reply(job.cfg, job.src, e, SignatureFor(e, plan)) == Ok(msg)
    ensures ReadDelta(job.cfg, e, msg).Ok?
    ensures NewData(plan, ReadDelta(job.cfg, e, msg).value) == Ok(FinalContent(job, e, ContentAt(fs, At(job.cfg, e))))
  {
    PlanIs(job.cfg, e, fs);
    var ops := ReplyOps(job.cfg, job.src, e, plan.sig, plan.action).value;
    Wire.WireRoundTrip(job.cfg.codec, ops, Render(e.path), job.cfg.copts);
    ReplyRebuilds(job, e, plan, ops);
    hide Prepare, Wire.Encode, Wire.Decode, DeltaOf, Delta.Apply, CollisionFree;
  }

  // ---- One entry ----

  lemma WorkKeepsShape(fs: FS, after: FS, p: Path, q: Path)
    requires Valid(fs) && WorksOn(fs, after, p) && q != p && !(q < p)
    ensures ShapeAt(after, q) == ShapeAt(fs, q)
  {
  }

  lemma SameShapeSameContent(fs: FS, after: FS, q: Path)
    requires ShapeAt(after, q) == ShapeAt(fs, q)
    ensures ContentAt(after, q) == ContentAt(fs, q) && Lookup(after, q).Some? == Lookup(fs, q).Some?
  {
  }

  /** q holds the bytes it held and, unless it is above p, the same kind of thing. */
  predicate Spared(fs: FS, after: FS, p: Path, q: Path) {
    ContentAt(after, q) == ContentAt(fs, q) && (!(q < p) ==> ShapeAt(after, q) == ShapeAt(fs, q))
  }

  lemma WorkSpares(fs: FS, after: FS, p: Path, q: Path)
    requires Valid(fs) && WorksOn(fs, after, p) && q != p
    ensures Spared(fs, after, p, q)
  {
    WorkKeepsContent(fs, after, p, q);
    if !(q < p) {
      WorkKeepsShape(fs, after, p, q);
    }
  }

  lemma PlainSpares(fs: FS, e: FileEntry, p: Path, opts: AttrOptions, q: Path)
    requires Valid(fs) && Attributes.ApplyPlain(fs, e, p, opts).Ok?
    ensures Spared(fs, Attributes.ApplyPlain(fs, e, p, opts).value, p, q)
  {
    hide Valid;
    PlainKeepsContent(fs, e, p, opts, q);
    if Lookup(fs, p).Some? {
      Attributes.ApplyPlainWorks(fs, e, p, opts);
    }
  }

  lemma MkdirSpares(proc: Process, fs: FS, p: Path, q: Path)
    requires Valid(fs) && MkdirAll(proc, fs, Parent(p)).Ok?
    ensures Spared(fs, MkdirAll(proc, fs, Parent(p)).value, p, q) && Valid(MkdirAll(proc, fs, Parent(p)).value)
    ensures Lookup(fs, p).Some? ==> ContentAt(MkdirAll(proc, fs, Parent(p)).value, p) == ContentAt(fs, p)
  {
    hide Valid, MkdirAll, WorksOn;
    MkdirKeepsContent(proc, fs, Parent(p), q);
    MkdirKeepsContent(proc, fs, Parent(p), p);
    MkdirAllWorks(proc, fs, Parent(p), Parent(p));
    if !(q < p) {
      if p == [] {
        RootStays(proc, fs, q);
      } else {
        assert q <= Parent(p) ==> q < p;
        SameLookup(fs, MkdirAll(proc, fs, Parent(p)).value, q);
      }
    }
  }

  lemma SameLookup(fs: FS, after: FS, q: Path)
    ensures Lookup(after, q) == Lookup(fs, q) ==> ShapeAt(after, q) == ShapeAt(fs, q)
  {
  }

  lemma RootStays(proc: Process, fs: FS, q: Path)
    requires MkdirAll(proc, fs, []).Ok?
    ensures MkdirAll(proc, fs, []).value == fs
  {
  }

  lemma SparedTwice(a: FS, b: FS, c: FS, p: Path, q: Path)
    requires Spared(a, b, p, q) && Spared(b, c, p, q)
    ensures Spared(a, c, p, q)
  {
  }

  /** Removing the partial file takes its name and spares every other path. */
  lemma DropSpares(cfg: Config, e: FileEntry, plan: Plan, fs: FS, q: Path)
    requires Valid(fs)
    ensures !(cfg.ropts.partialDir.Some? && q == Spot(cfg, e)) ==>
      ContentAt(DropPartial(cfg, e, plan, fs), q) == ContentAt(fs, q) && ShapeAt(DropPartial(cfg, e, plan, fs), q) == ShapeAt(fs, q)
    ensures cfg.ropts.partialDir.Some? && plan.usedPartial && IsFile(fs, Spot(cfg, e)) ==> Spot(cfg, e) !in DropPartial(cfg, e, plan, fs).names
  {
    if plan.usedPartial && cfg.ropts.partialDir.Some? {
      var spot := Spot(cfg, e);
      hide PartialPath, Parent, Valid;
      if spot in fs.names && Remove(cfg.proc, fs, spot).Ok? {
        RemoveShapes(cfg.proc, fs, spot, q);
        RemoveWorks(cfg.proc, fs, spot);
      }
    }
  }

  lemma RemoveShapes(proc: Process, fs: FS, p: Path, q: Path)
    requires Valid(fs) && p in fs.names && Remove(proc, fs, p).Ok?
    ensures ContentAt(Remove(proc, fs, p).value, q) == if q == p then None else ContentAt(fs, q)
    ensures q != p ==> ShapeAt(Remove(proc, fs, p).value, q) == ShapeAt(fs, q)
  {
    UnnameFacts(fs, p);
    var gone := fs.(names := fs.names - {p});
    BumpFacts(proc, gone, Parent(p));
    assert ShapeAt(Remove(proc, fs, p).value, q) == ShapeAt(gone, q);
  }

  /** Whether handling a regular entry takes its partial file away. */
  predicate Drops(job: Job, e: FileEntry, fs: FS) {
    && PartialBasis(job.cfg, e, fs).Some?
    && (Lookup(fs, At(job.cfg, e)).None? || PartialBasis(job.cfg, e, fs) != Some(SourceOf(job, e)))
  }

  lemma CommitSpares(cfg: Config, e: FileEntry, plan: Plan, data: Bytes, fs: FS, q: Path)
    requires Valid(fs) && e.kind == Regular && Commit(cfg, e, plan, data, fs).Ok?
    requires q != At(cfg, e) && (cfg.ropts.partialDir.Some? ==> q != Spot(cfg, e))
    ensures Spared(fs, Commit(cfg, e, plan, data, fs).value, At(cfg, e), q)
  {
    hide Valid, WorksOn, MkdirAll, Install, DropPartial, Attributes.ApplyPlain, ContentAt, ShapeAt, Parent, PartialPath, MustWrite;
    var p := At(cfg, e);
    var made := MkdirAll(cfg.proc, fs, Parent(p)).value;
    MkdirSpares(cfg.proc, fs, p, q);
    var written := WriteContent(cfg, e, plan, data, made).value;
    if MustWrite(plan, data) {
      var installed := Install(cfg.proc, made, p, data).value;
      InstallWorks(cfg.proc, made, p, data);
      WorkSpares(made, installed, p, q);
      DropSpares(cfg, e, plan, installed, q);
      DropValid(cfg, e, plan, installed);
    }
    PlainSpares(written, e, p, cfg.attrs, q);
  }

  /** What an entry's own path holds once it is committed. */
  lemma CommitLeaves(cfg: Config, e: FileEntry, plan: Plan, data: Bytes, fs: FS)
    requires Valid(fs) && e.kind == Regular && Prepare(cfg, e, fs) == Ok(plan) && Commit(cfg, e, plan, data, fs).Ok?
    ensures var after := Commit(cfg, e, plan, data, fs).value;
      && ContentAt(after, At(cfg, e)) == (if !MustWrite(plan, data) then ContentAt(fs, At(cfg, e))
                                          else if plan.usedPartial && Spot(cfg, e) == At(cfg, e) then None else Some(data))
      && (plan.usedPartial && MustWrite(plan, data) ==> ContentAt(after, Spot(cfg, e)) == None)
      && (cfg.ropts.partialDir.Some? && !(plan.usedPartial && MustWrite(plan, data)) && Spot(cfg, e) != At(cfg, e) ==>
            ContentAt(after, Spot(cfg, e)) == ContentAt(fs, Spot(cfg, e)))
  {
    PlanIs(cfg, e, fs);
    hide Valid, WorksOn, Prepare, MkdirAll, Install, DropPartial, Attributes.ApplyPlain, ShapeAt, Parent, PartialPath, MustWrite;
    var p := At(cfg, e);
    var made := MkdirAll(cfg.proc, fs, Parent(p)).value;
    MkdirKeepsContent(cfg.proc, fs, Parent(p), p);
    var written := WriteContent(cfg, e, plan, data, made).value;
    PlainKeepsContent(written, e, p, cfg.attrs, p);
    if cfg.ropts.partialDir.Some? {
      MkdirKeepsContent(cfg.proc, fs, Parent(p), Spot(cfg, e));
      PlainKeepsContent(written, e, p, cfg.attrs, Spot(cfg, e));
    }
    if MustWrite(plan, data) {
      var installed := Install(cfg.proc, made, p, data).value;
      InstallWorks(cfg.proc, made, p, data);
      InstallKeepsContent(cfg.proc, made, p, data, p);
      DropSpares(cfg, e, plan, installed, p);
      if cfg.ropts.partialDir.Some? {
        InstallKeepsContent(cfg.proc, made, p, data, Spot(cfg, e));
      }
      if !plan.usedPartial {
        NothingDropped(cfg, e, plan, installed);
      }
    }
  }

  lemma NothingDropped(cfg: Config, e: FileEntry, plan: Plan, fs: FS)
    requires !plan.usedPartial
    ensures DropPartial(cfg, e, plan, fs) == fs
  {
  }

  /** The partial file already is the source and something is there: nothing is written, and the path keeps what it held. */
  predicate Held(job: Job, e: FileEntry, fs: FS) {
    PartialBasis(job.cfg, e, fs) == Some(SourceOf(job, e)) && Lookup(fs, At(job.cfg, e)).Some?
  }

  /** What a transferred path holds afterwards, when its partial file lies elsewhere. */
  function Landed(job: Job, e: FileEntry, fs: FS): Option<Bytes> {
    if Held(job, e, fs) then ContentAt(fs, At(job.cfg, e)) else Some(FinalContent(job, e, ContentAt(fs, At(job.cfg, e))))
  }

  lemma WritesUnlessHeld(job: Job, e: FileEntry, fs: FS, plan: Plan, data: Bytes)
    requires Prepare(job.cfg, e, fs) == Ok(plan) && data == FinalContent(job, e, ContentAt(fs, At(job.cfg, e)))
    requires plan.action == AppendSkip ==> data == plan.basis
    ensures MustWrite(plan, data) ==> !Held(job, e, fs)
    ensures !MustWrite(plan, data) ==> ContentAt(fs, At(job.cfg, e)) == Landed(job, e, fs)
    ensures plan.usedPartial ==> (MustWrite(plan, data) <==> Drops(job, e, fs))
  {
    PlanIs(job.cfg, e, fs);
    hide Prepare, PartialPath, Parent;
  }

  /** A transfer leaves at its own path what Landed says, but nothing at all where the partial file lies at that very path and was used. */
  lemma TransferLands(job: Job, e: FileEntry, pr: Progress)
    requires Valid(pr.st.fs) && !job.cfg.ropts.dryRun && Wire.Inverts(job.cfg.codec) && NoCollisionOn(job, e, pr.st.fs)
    requires Transfers(job.list, e) && SyncEntry(job, e, pr).Ok?
    ensures var fs, after := pr.st.fs, SyncEntry(job, e, pr).value.st.fs;
      && ContentAt(after, At(job.cfg, e)) == (if Drops(job, e, fs) && Spot(job.cfg, e) == At(job.cfg, e) then None else Landed(job, e, fs))
      && (Drops(job, e, fs) ==> ContentAt(after, Spot(job.cfg, e)) == None)
      && (job.cfg.ropts.partialDir.Some? && !Drops(job, e, fs) && Spot(job.cfg, e) != At(job.cfg, e) ==>
            ContentAt(after, Spot(job.cfg, e)) == ContentAt(fs, Spot(job.cfg, e)))
  {
    hide Valid, Prepare, Reply, ReadDelta, NewData, Commit, NoCollisionOn, FinalContent, ContentAt, MustWrite, PartialPath, PartialBasis, Held;
    var cfg, fs := job.cfg, pr.st.fs;
    var plan := Prepare(cfg, e, fs).value;
    var msg := Reply(cfg, job.src, e, SignatureFor(e, plan)).value;
    AnswerLands(job, e, fs, plan, msg);
    var data := NewData(plan, ReadDelta(cfg, e, msg).value).value;
    SkipKeepsBasis(plan, ReadDelta(cfg, e, msg).value);
    CommitLeaves(cfg, e, plan, data, fs);
    WritesUnlessHeld(job, e, fs, plan, data);
    UsesPartial(cfg, e, fs);
  }

  lemma SkipKeepsBasis(plan: Plan, ops: seq<Op>)
    ensures plan.action == AppendSkip ==> NewData(plan, ops) == Ok(plan.basis)
  {
  }

  lemma UsesPartial(cfg: Config, e: FileEntry, fs: FS)
    requires Prepare(cfg, e, fs).Ok?
    ensures Prepare(cfg, e, fs).value.usedPartial == PartialBasis(cfg, e, fs).Some?
    ensures PartialBasis(cfg, e, fs).Some? ==> cfg.ropts.partialDir.Some? && !cfg.ropts.AppendMode()
  {
    PlanIs(cfg, e, fs);
  }

  /** Handling an entry changes bytes only at its own path and, with a partial directory, where its partial file lies. */
  lemma EntrySpares(job: Job, e: FileEntry, pr: Progress, q: Path)
    requires Valid(pr.st.fs) && SyncEntry(job, e, pr).Ok?
    requires q != At(job.cfg, e) && (job.cfg.ropts.partialDir.Some? ==> q != Spot(job.cfg, e))
    ensures Spared(pr.st.fs, SyncEntry(job, e, pr).value.st.fs, At(job.cfg, e), q)
  {
    var cfg, fs := job.cfg, pr.st.fs;
    if Transfers(job.list, e) {
      hide Valid, Prepare, Reply, ReadDelta, NewData, Commit, Spared, PartialPath;
      var plan := Prepare(cfg, e, fs).value;
      var msg := Reply(cfg, job.src, e, SignatureFor(e, plan)).value;
      if !cfg.ropts.dryRun {
        CommitSpares(cfg, e, plan, NewData(plan, ReadDelta(cfg, e, msg).value).value, fs, q);
      } else {
        SparedSame(fs, At(cfg, e), q);
      }
    } else {
      LocalSpares(cfg, e, pr.st, q);
    }
  }

  lemma SparedSame(fs: FS, p: Path, q: Path)
    ensures Spared(fs, fs, p, q)
  {
  }

  lemma LocalSpares(cfg: Config, e: FileEntry, st: State, q: Path)
    requires Valid(st.fs) && ReceiveLocal(cfg, e, st).Ok? && q != At(cfg, e)
    ensures Spared(st.fs, ReceiveLocal(cfg, e, st).value.fs, At(cfg, e), q)
  {
    hide Valid, WorksOn, MkdirAll, Attributes.ApplyAttributes, Spared, Parent;
    var p := At(cfg, e);
    SparedSame(st.fs, p, q);
    if !cfg.ropts.dryRun && e.kind == Directory {
      MkdirAllWorks(cfg.proc, st.fs, p, p);
      WorkSpares(st.fs, MkdirAll(cfg.proc, st.fs, p).value, p, q);
    }
    if !cfg.ropts.dryRun && e.kind == Symlinked && cfg.attrs.links {
      var made := MkdirAll(cfg.proc, st.fs, Parent(p)).value;
      MkdirSpares(cfg.proc, st.fs, p, q);
      var placed := Attributes.ApplyAttributes(cfg.proc, made, e, p, cfg.attrs).value;
      Attributes.ApplyAttributesLinkWorks(cfg.proc, made, e, p, cfg.attrs);
      WorkSpares(made, placed, p, q);
      SparedTwice(st.fs, made, placed, p, q);
    }
  }
}
