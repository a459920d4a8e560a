/** When one entry succeeds, exactly: what must be at its path and above it, and at the source. */
module Welcome {
  import opened Prelude
  import opened FileSystem
  import opened Entries
  import opened Attributes
  import opened Delta
  import opened Receiver
  import opened SyncRun
  import opened Effects
  import opened Contents
  import opened PartialMisses
  import opened Directories
  import opened SecondRun
  import Blocks
  import Itemize
  import Wire

  // ---- The conditions ----

  /** os.Remove can take what is at p: it is no directory with something in it. */
  predicate Clearable(fs: FS, p: Path) {
    IsDir(fs, p) ==> !HasChild(fs, p)
  }

  predicate LinkAt(fs: FS, p: Path) {
    Lookup(fs, p).Some? && Lookup(fs, p).value.Link?
  }

  /** The source has the file, unless an append mode skips it, and under --append has not shrunk below what is there. */
  predicate Given(job: Job, e: FileEntry, fs: FS) {
    var there, held := Lookup(fs, At(job.cfg, e)).Some?, |OrEmpty(ContentAt(fs, At(job.cfg, e)))|;
    (job.cfg.ropts.AppendMode() && there && held >= e.size) ||
    (e.path in job.src && (job.cfg.ropts.append && !job.cfg.ropts.appendVerify && there ==> held <= |job.src[e.path]|))
  }

  /** Nothing above the path but directories; a file or nothing at it, or a partial file to read instead; and the source has it. */
  ghost predicate FileWelcome(job: Job, e: FileEntry, fs: FS) {
    var p := At(job.cfg, e);
    && Makeable(fs, Parent(p))
    && Given(job, e, fs)
    && match PartialBasis(job.cfg, e, fs)
       case None => p in fs.names ==> IsFile(fs, p)
       case Some(_) =>
         job.cfg.ropts.dryRun ||
         if Held(job, e, fs) then LinkAt(fs, p) ==> !job.cfg.attrs.perms && !job.cfg.attrs.times else !IsDir(fs, p)
  }

  ghost predicate LinkWelcome(job: Job, e: FileEntry, fs: FS) {
    job.cfg.attrs.links ==>
      Makeable(fs, Parent(At(job.cfg, e))) && (!job.cfg.ropts.dryRun ==> e.target != "" && Clearable(fs, At(job.cfg, e)))
  }

  /** The condition for an entry to succeed; a dry run asks only what it looks at. */
  ghost predicate EntryWelcome(job: Job, e: FileEntry, fs: FS) {
    match e.kind
    case Directory => Makeable(fs, if job.cfg.ropts.dryRun then Parent(At(job.cfg, e)) else At(job.cfg, e))
    case Symlinked => LinkWelcome(job, e, fs)
    case Regular => Transfers(job.list, e) ==> FileWelcome(job, e, fs)
  }

  // ---- Directories and symlinks ----

  lemma ExistingIff(fs: FS, p: Path)
    requires Valid(fs) && p != []
    ensures Existing(fs, p).Ok? <==> Makeable(fs, Parent(p))
    ensures Existing(fs, p).Ok? ==> Existing(fs, p).value == Lookup(fs, p)
  {
    BlockedIff(fs, p);
    NamedIsFound(fs, p);
    hide Makeable;
  }

  lemma DirIff(job: Job, e: FileEntry, st: State)
    requires Valid(st.fs) && At(job.cfg, e) != [] && e.kind == Directory
    ensures ReceiveDir(job.cfg, e, st).Ok? <==> EntryWelcome(job, e, st.fs)
  {
    ExistingIff(st.fs, At(job.cfg, e));
    MkdirAllIff(job.cfg.proc, st.fs, At(job.cfg, e));
    MakeableAbove(st.fs, At(job.cfg, e));
    hide Makeable, MkdirAll, Existing, Valid, Itemize.ItemizeDir;
  }

  lemma PlacedIff(cfg: Config, e: FileEntry, fs: FS)
    requires Valid(fs) && At(cfg, e) != [] && e.kind == Symlinked && cfg.attrs.links
    ensures PlaceSymlink(cfg, e, fs).Ok? <==> Makeable(fs, Parent(At(cfg, e))) && e.target != "" && Clearable(fs, At(cfg, e))
  {
    var p := At(cfg, e);
    MkdirAllIff(cfg.proc, fs, Parent(p));
    hide Makeable, Valid, HasChild;
    if MkdirAll(cfg.proc, fs, Parent(p)).Ok? {
      var made := MkdirAll(cfg.proc, fs, Parent(p)).value;
      ParentsMade(cfg.proc, fs, p);
      hide MkdirAll;
      if e.target != "" && (p in made.names ==> Clearable(made, p)) {
        LinkIsPlaced(cfg.proc, made, e, p, cfg.attrs);
      }
    }
  }

  /** With its parents made, p itself is what it was. */
  lemma ParentsMade(proc: Process, fs: FS, p: Path)
    requires Valid(fs) && p != [] && MkdirAll(proc, fs, Parent(p)).Ok?
    ensures var made := MkdirAll(proc, fs, Parent(p)).value;
      && Valid(made) && IsDir(made, Parent(p)) && Lookup(made, p) == Lookup(fs, p)
      && (p in made.names <==> p in fs.names) && (p in fs.names ==> made == fs)
  {
    hide MkdirAll;
    assert Parent(p) < p && !(p <= Parent(p));
    MkdirAllWorks(proc, fs, Parent(p), p);
    if p in fs.names {
      NamedHasParent(fs, p);
      StandsAlready(proc, fs, Parent(p));
    } else {
      NamedIsFound(fs, p);
      NamedIsFound(MkdirAll(proc, fs, Parent(p)).value, p);
    }
  }

  lemma LinkIsPlaced(proc: Process, fs: FS, e: FileEntry, p: Path, opts: AttrOptions)
    requires Valid(fs) && p != [] && IsDir(fs, Parent(p)) && e.kind == Symlinked && opts.links && e.target != "" && (p in fs.names ==> Clearable(fs, p))
    ensures ApplyAttributes(proc, fs, e, p, opts).Ok?
  {
    hide Valid, WithOwnership;
    assert Remove(proc, fs, p).Ok?;
    var gone := Remove(proc, fs, p).value;
    RemoveWorks(proc, fs, p);
    if p in fs.names {
      ParentStays(proc, fs, p);
    }
    hide Remove;
    assert Symlink(proc, gone, p, e.target).Ok?;
    SymlinkWorks(proc, gone, p, e.target);
    hide Symlink;
  }

  lemma LinkIff(job: Job, e: FileEntry, st: State)
    requires Valid(st.fs) && At(job.cfg, e) != [] && e.kind == Symlinked
    ensures ReceiveSymlink(job.cfg, e, st).Ok? <==> EntryWelcome(job, e, st.fs)
  {
    if job.cfg.attrs.links {
      ExistingIff(st.fs, At(job.cfg, e));
      PlacedIff(job.cfg, e, st.fs);
    }
    hide Makeable, Clearable, PlaceSymlink, Existing, Valid, Itemize.ItemizeSymlink;
  }

  // ---- Files ----

  lemma PrepareIff(cfg: Config, e: FileEntry, fs: FS)
    requires Valid(fs) && At(cfg, e) != []
    ensures Prepare(cfg, e, fs).Ok? <==>
      Makeable(fs, Parent(At(cfg, e))) && (PartialBasis(cfg, e, fs).None? && At(cfg, e) in fs.names ==> IsFile(fs, At(cfg, e)))
  {
    var p := At(cfg, e);
    ExistingIff(fs, p);
    BlockedIff(fs, p);
    if cfg.ropts.partialDir.Some? {
      ReadIsContent(fs, Spot(cfg, e));
    }
    NamedIsFound(fs, p);
    hide Makeable, Valid, ChooseSignature, PartialPath, Parent, Existing;
  }

  lemma ReplyIff(job: Job, e: FileEntry, fs: FS, plan: Plan)
    requires Prepare(job.cfg, e, fs) == Ok(plan) && Transfers(job.list, e)
    ensures Reply(job.cfg, job.src, e, SignatureFor(e, plan)).Ok? <==> Given(job, e, fs)
  {
    PlanIs(job.cfg, e, fs);
    hide Prepare, DeltaOf, Wire.Encode, PartialPath, Blocks.Sign;
  }

  lemma PlainIff(fs: FS, e: FileEntry, p: Path, opts: AttrOptions)
    requires Lookup(fs, p).Some?
    ensures ApplyPlain(fs, e, p, opts).Ok? <==> !(LinkAt(fs, p) && (opts.perms || opts.times))
  {
  }

  /** With the plan made and the data rebuilt, what can still fail is putting them in place. */
  lemma CommitIff(job: Job, e: FileEntry, fs: FS, plan: Plan, data: Bytes)
    requires Valid(fs) && At(job.cfg, e) != [] && Transfers(job.list, e) && Prepare(job.cfg, e, fs) == Ok(plan)
    requires job.cfg.ropts.partialDir.Some? ==> Spot(job.cfg, e) != At(job.cfg, e)
    requires data == FinalContent(job, e, ContentAt(fs, At(job.cfg, e))) && (plan.action == AppendSkip ==> data == plan.basis)
    ensures Commit(job.cfg, e, plan, data, fs).Ok? <==>
      (PartialBasis(job.cfg, e, fs).Some? ==>
         if Held(job, e, fs) then LinkAt(fs, At(job.cfg, e)) ==> !job.cfg.attrs.perms && !job.cfg.attrs.times else !IsDir(fs, At(job.cfg, e)))
    ensures Commit(job.cfg, e, plan, data, fs).Ok? ==>
      At(job.cfg, e) in Commit(job.cfg, e, plan, data, fs).value.names
      && (IsDir(Commit(job.cfg, e, plan, data, fs).value, At(job.cfg, e)) <==> IsDir(fs, At(job.cfg, e)))
  {
    var cfg, p := job.cfg, At(job.cfg, e);
    PlanIs(cfg, e, fs);
    PrepareIff(cfg, e, fs);
    MkdirAllIff(cfg.proc, fs, Parent(p));
    WritesUnlessHeld(job, e, fs, plan, data);
    ParentsMade(cfg.proc, fs, p);
    NamedIsFound(fs, p);
    var made := MkdirAll(cfg.proc, fs, Parent(p)).value;
    hide Prepare, MkdirAll, Makeable, Valid, FinalContent, PartialPath, Parent;
    if MustWrite(plan, data) {
      WrittenIff(cfg, e, plan, data, made);
      hide Install, DropPartial, ApplyPlain;
    } else {
      assert made == fs && WriteContent(cfg, e, plan, data, made) == Ok(fs);
      PlainIff(fs, e, p, cfg.attrs);
      if ApplyPlain(fs, e, p, cfg.attrs).Ok? {
        ApplyPlainWorks(fs, e, p, cfg.attrs);
        SameKind(fs, ApplyPlain(fs, e, p, cfg.attrs).value, p);
      }
      hide ApplyPlain;
    }
  }

  /** Installing over anything but a directory, dropping the partial file, and the attributes. */
  lemma WrittenIff(cfg: Config, e: FileEntry, plan: Plan, data: Bytes, made: FS)
    requires Valid(made) && At(cfg, e) != [] && IsDir(made, Parent(At(cfg, e))) && e.kind == Regular && MustWrite(plan, data)
    requires cfg.ropts.partialDir.Some? ==> Spot(cfg, e) != At(cfg, e)
    ensures WriteContent(cfg, e, plan, data, made).Ok? <==> !IsDir(made, At(cfg, e))
    ensures WriteContent(cfg, e, plan, data, made).Ok? ==>
      var stamped := ApplyAttributes(cfg.proc, WriteContent(cfg, e, plan, data, made).value, e, At(cfg, e), cfg.attrs);
      stamped.Ok? && At(cfg, e) in stamped.value.names && !IsDir(stamped.value, At(cfg, e))
  {
    var p := At(cfg, e);
    if !IsDir(made, p) {
      var installed := Install(cfg.proc, made, p, data).value;
      InstallWorks(cfg.proc, made, p, data);
      DropSpares(cfg, e, plan, installed, p);
      DropValid(cfg, e, plan, installed);
      var written := DropPartial(cfg, e, plan, installed);
      hide Install, DropPartial, Valid, PartialPath;
      SameKind(installed, written, p);
      PlainSucceeds(written, e, p, cfg.attrs);
      NamedIsFound(written, p);
      var stamped := ApplyPlain(written, e, p, cfg.attrs).value;
      ApplyPlainWorks(written, e, p, cfg.attrs);
      SameKind(written, stamped, p);
      hide ApplyPlain;
    }
  }

  lemma FileIff(job: Job, e: FileEntry, pr: Progress)
    requires Valid(pr.st.fs) && At(job.cfg, e) != [] && Transfers(job.list, e) && Wire.Inverts(job.cfg.codec) && NoCollisionOn(job, e, pr.st.fs)
    requires job.cfg.ropts.partialDir.Some? ==> Spot(job.cfg, e) != At(job.cfg, e)
    ensures SyncEntry(job, e, pr).Ok? <==> FileWelcome(job, e, pr.st.fs)
    ensures SyncEntry(job, e, pr).Ok? && !job.cfg.ropts.dryRun ==>
      At(job.cfg, e) in SyncEntry(job, e, pr).value.st.fs.names
      && (IsDir(SyncEntry(job, e, pr).value.st.fs, At(job.cfg, e)) <==> IsDir(pr.st.fs, At(job.cfg, e)))
  {
    hide Valid, NoCollisionOn, Transfers, Prepare, Reply, ReadDelta, NewData, Commit, Given, Makeable, FinalContent, PartialBasis, Held, PartialPath;
    var cfg, fs := job.cfg, pr.st.fs;
    PrepareIff(cfg, e, fs);
    if Prepare(cfg, e, fs).Ok? {
      var plan := Prepare(cfg, e, fs).value;
      ReplyIff(job, e, fs, plan);
      if Given(job, e, fs) {
        var msg := Reply(cfg, job.src, e, SignatureFor(e, plan)).value;
        AnswerLands(job, e, fs, plan, msg);
        SkipKeepsBasis(plan, ReadDelta(cfg, e, msg).value);
        CommitIff(job, e, fs, plan, FinalContent(job, e, ContentAt(fs, At(cfg, e))));
      }
    }
  }

  /** An entry succeeds exactly when it is welcome where it arrives. */
  lemma EntryIff(job: Job, e: FileEntry, pr: Progress)
    requires Valid(pr.st.fs) && At(job.cfg, e) != [] && Wire.Inverts(job.cfg.codec) && (Transfers(job.list, e) ==> NoCollisionOn(job, e, pr.st.fs))
    requires job.cfg.ropts.partialDir.Some? && Transfers(job.list, e) ==> Spot(job.cfg, e) != At(job.cfg, e)
    ensures SyncEntry(job, e, pr).Ok? <==> EntryWelcome(job, e, pr.st.fs)
  {
    hide Valid, NoCollisionOn, FileWelcome, LinkWelcome, ReceiveDir, ReceiveSymlink, PartialPath, Makeable;
    match e.kind
    case Directory => DirIff(job, e, pr.st);
    case Symlinked => LinkIff(job, e, pr.st);
    case Regular =>
      if Transfers(job.list, e) {
        FileIff(job, e, pr);
        hide SyncEntry, Transfers;
      }
  }
}
