/**
 * The inputs on which a partial directory keeps a file from arriving: run
 * through the whole exchange, each entry without an error.
 */
module PartialMisses {
  import opened Prelude
  import opened FileSystem
  import opened Entries
  import opened Attributes
  import opened Delta
  import opened Receiver
  import opened SyncRun
  import opened Effects
  import opened Runs
  import opened Contents
  import opened PartialDirs
  import Blocks
  import Itemize
  import OneFile
  import Wire

  /** Data shorter than a block has no window to collide with anything. */
  lemma ShortNeverCollides(job: Job, e: FileEntry, fs: FS)
    requires |SourceOf(job, e)| < Blocks.DEFAULT_BLOCK_SIZE
    ensures NoCollisionOn(job, e, fs)
  {
  }

  lemma LstatBelowDir(fs: FS, p: Path)
    requires p != [] && IsDir(fs, Parent(p)) && Lookup(fs, p).None?
    ensures Lstat(fs, p) == Missing
  {
    assert Lstat(fs, Parent(p)).Present?;
  }

  lemma PrepareSucceeds(cfg: Config, e: FileEntry, fs: FS)
    requires At(cfg, e) != [] && IsDir(fs, Parent(At(cfg, e))) && (Lookup(fs, At(cfg, e)).None? || IsFile(fs, At(cfg, e)))
    ensures Prepare(cfg, e, fs).Ok?
  {
    if Lookup(fs, At(cfg, e)).None? {
      LstatBelowDir(fs, At(cfg, e));
    }
    hide ChooseSignature, PartialPath;
  }

  /** No attribute is asked for. */
  predicate Bare(opts: AttrOptions) {
    !opts.perms && !opts.times && !opts.owner && !opts.group
  }

  lemma PlainSucceeds(fs: FS, e: FileEntry, p: Path, opts: AttrOptions)
    requires IsFile(fs, p) || (Bare(opts) && Lookup(fs, p).None?)
    ensures ApplyPlain(fs, e, p, opts).Ok?
  {
  }

  lemma CommitSucceeds(cfg: Config, e: FileEntry, plan: Plan, data: Bytes, fs: FS)
    requires Valid(fs) && e.kind == Regular && At(cfg, e) != [] && IsDir(fs, Parent(At(cfg, e)))
    requires Prepare(cfg, e, fs) == Ok(plan) && (Lookup(fs, At(cfg, e)).None? || IsFile(fs, At(cfg, e))) && plan.action == AppendNone
    requires plan.usedPartial && Spot(cfg, e) == At(cfg, e) ==> Bare(cfg.attrs)
    ensures Commit(cfg, e, plan, data, fs).Ok?
  {
    PlanIs(cfg, e, fs);
    hide Valid, WorksOn, Prepare, Install, DropPartial, ApplyPlain, PartialPath, Parent;
    var p := At(cfg, e);
    assert MkdirAll(cfg.proc, fs, Parent(p)) == Ok(fs);
    if MustWrite(plan, data) {
      InstallSucceeds(cfg.proc, fs, p, data);
      var installed := Install(cfg.proc, fs, p, data).value;
      InstallWorks(cfg.proc, fs, p, data);
      DropSpares(cfg, e, plan, installed, p);
      NamesAreFound(installed, p);
      if cfg.ropts.partialDir.Some? && plan.usedPartial && Spot(cfg, e) == p {
        Unnamed(DropPartial(cfg, e, plan, installed), p);
      } else if !plan.usedPartial {
        NothingDropped(cfg, e, plan, installed);
      } else {
        SameKind(installed, DropPartial(cfg, e, plan, installed), p);
      }
      PlainSucceeds(DropPartial(cfg, e, plan, installed), e, p, cfg.attrs);
    } else {
      PlainSucceeds(fs, e, p, cfg.attrs);
    }
  }

  lemma InstallSucceeds(proc: Process, fs: FS, p: Path, data: Bytes)
    requires p != [] && IsDir(fs, Parent(p)) && (Lookup(fs, p).None? || IsFile(fs, p))
    ensures Install(proc, fs, p, data).Ok?
  {
  }

  lemma NamesAreFound(fs: FS, p: Path)
    ensures IsFile(fs, p) ==> Lookup(fs, p).Some?
  {
  }

  lemma Unnamed(fs: FS, p: Path)
    requires p !in fs.names
    ensures Lookup(fs, p) == None
  {
  }

  lemma SameKind(fs: FS, after: FS, p: Path)
    requires ShapeAt(after, p) == ShapeAt(fs, p)
    ensures IsFile(after, p) == IsFile(fs, p) && IsDir(after, p) == IsDir(fs, p)
    ensures Lookup(after, p).None? == Lookup(fs, p).None?
  {
  }

  /** An exchange into a directory that exists, over a file or nothing, succeeds. */
  lemma ExchangeSucceeds(job: Job, e: FileEntry, pr: Progress)
    requires Valid(pr.st.fs) && Transfers(job.list, e) && !job.cfg.ropts.dryRun && !job.cfg.ropts.AppendMode()
    requires Wire.Inverts(job.cfg.codec) && NoCollisionOn(job, e, pr.st.fs) && e.path in job.src
    requires At(job.cfg, e) != [] && IsDir(pr.st.fs, Parent(At(job.cfg, e)))
    requires Lookup(pr.st.fs, At(job.cfg, e)).None? || IsFile(pr.st.fs, At(job.cfg, e))
    requires PartialBasis(job.cfg, e, pr.st.fs).Some? && Spot(job.cfg, e) == At(job.cfg, e) ==> Bare(job.cfg.attrs)
    ensures SyncEntry(job, e, pr).Ok?
  {
    hide Valid, NoCollisionOn, PartialPath, Transfers, Commit, ReadDelta, NewData;
    var cfg, fs := job.cfg, pr.st.fs;
    PrepareSucceeds(cfg, e, fs);
    var plan := Prepare(cfg, e, fs).value;
    PlanIs(cfg, e, fs);
    assert Reply(cfg, job.src, e, SignatureFor(e, plan)).Ok? by {
      hide Prepare, DeltaOf, Wire.Encode;
    }
    hide Prepare, Reply;
    var msg := Reply(cfg, job.src, e, SignatureFor(e, plan)).value;
    AnswerLands(job, e, fs, plan, msg);
    TransfersRegular(job.list, e);
    CommitSucceeds(cfg, e, plan, NewData(plan, ReadDelta(cfg, e, msg).value).value, fs);
  }

  lemma TransfersRegular(list: FileList, e: FileEntry)
    requires Transfers(list, e)
    ensures e.kind == Regular
  {
  }

  // ---- One entry ----

  /** A destination with a file f, and another version of it in directory p. */
  function Sample(held: Bytes, kept: Bytes): FS {
    var meta := Meta(0, 0, 0, 0);
    FS(map[[] := 0, ["f"] := 1, ["p"] := 2, ["p", "f"] := 3],
       map[0 := Dir(meta), 1 := File(meta, held), 2 := Dir(meta), 3 := File(meta, kept)], 4, 0)
  }

  lemma SampleHolds(held: Bytes, kept: Bytes)
    ensures Valid(Sample(held, kept)) && IsDir(Sample(held, kept), [])
    ensures IsFile(Sample(held, kept), ["f"]) && ContentAt(Sample(held, kept), ["f"]) == Some(held)
    ensures ContentAt(Sample(held, kept), ["p", "f"]) == Some(kept)
  {
    var f, p, pf: Path, root: Path := ["f"], ["p"], ["p", "f"], [];
    assert |root| == 0 && |f| == |p| == 1 && |pf| == 2;
    assert f[0][0] == 'f' && p[0][0] == 'p';
    var fs := Sample(held, kept);
    assert fs.names[f] == 1 && fs.names[pf] == 3 && fs.names[root] == 0 && fs.names[p] == 2;
    assert Parent(f) == root && Parent(p) == root && Parent(pf) == p;
  }

  /** One regular file f is to become `source`, which is shorter than a block. */
  ghost predicate SendsF(job: Job, source: Bytes) {
    && |job.list.entries| == 1 && job.list.groups == [] && job.list.entries[0].kind == Regular && job.list.entries[0].path == ["f"]
    && job.src == map[["f"] := source] && |source| < Blocks.DEFAULT_BLOCK_SIZE
    && job.cfg.dest == [] && !job.cfg.ropts.dryRun && !job.cfg.ropts.AppendMode() && Wire.Inverts(job.cfg.codec)
  }

  /** The partial file already is the source: the exchange succeeds and the other bytes stay. */
  lemma FinishedPartialHolds(job: Job, held: Bytes, source: Bytes, pr: Progress)
    requires SendsF(job, source) && held != source && pr.st.fs == Sample(held, source)
    requires job.cfg.ropts.partialDir == Some(Relative(["p"]))
    ensures SyncEntry(job, Entry(job, 0), pr).Ok?
    ensures ContentAt(SyncEntry(job, Entry(job, 0), pr).value.st.fs, Where(job, 0)) == Some(held)
  {
    var e := Entry(job, 0);
    SampleHolds(held, source);
    hide Sample, Valid;
    assert At(job.cfg, e) == ["f"] && Parent(["f"]) == [] && Base(["f"]) == "f";
    assert Spot(job.cfg, e) == ["p", "f"] && |["p", "f"]| == 2;
    ShortNeverCollides(job, e, pr.st.fs);
    hide NoCollisionOn;
    ExchangeSucceeds(job, e, pr);
    TransferLands(job, e, pr);
    hide SyncEntry;
  }

  /** The partial directory is the file's own: the exchange succeeds and takes the new file away again. */
  lemma OwnDirectoryTakes(job: Job, held: Bytes, kept: Bytes, source: Bytes, pr: Progress)
    requires SendsF(job, source) && held != source && pr.st.fs == Sample(held, kept)
    requires job.cfg.ropts.partialDir == Some(Relative([])) && Bare(job.cfg.attrs)
    ensures SyncEntry(job, Entry(job, 0), pr).Ok?
    ensures ContentAt(SyncEntry(job, Entry(job, 0), pr).value.st.fs, Where(job, 0)) == None
  {
    var e := Entry(job, 0);
    SampleHolds(held, kept);
    hide Sample, Valid;
    assert At(job.cfg, e) == ["f"] && Parent(["f"]) == [] && Base(["f"]) == "f";
    assert Spot(job.cfg, e) == ["f"];
    ShortNeverCollides(job, e, pr.st.fs);
    hide NoCollisionOn;
    ExchangeSucceeds(job, e, pr);
    TransferLands(job, e, pr);
    hide SyncEntry;
  }

  // ---- A finished file taken by a later entry ----

  /**
   * Where entry k's partial file lies at a path entry i was put, that path
   * loses its bytes to entry k exactly when entry k drops its partial file.
   */
  lemma FinishedIsTaken(job: Job, start: FS, i: nat, k: nat)
    requires WellFormed(job.list) && Valid(start) && !job.cfg.ropts.dryRun && Wire.Inverts(job.cfg.codec)
    requires i < |job.list.entries| && k < |job.list.entries| && i != k && Transfers(job.list, Entry(job, k))
    requires job.cfg.ropts.partialDir.Some? && Spot(job.cfg, Entry(job, k)) == Where(job, i)
    requires After(job, start, k + 1).Ok? && NoCollisionOn(job, Entry(job, k), After(job, start, k).value.st.fs)
    ensures var before, after := After(job, start, k).value.st.fs, After(job, start, k + 1).value.st.fs;
      && (Drops(job, Entry(job, k), before) ==> ContentAt(before, Where(job, i)).Some? && ContentAt(after, Where(job, i)) == None)
      && (!Drops(job, Entry(job, k), before) ==> ContentAt(after, Where(job, i)) == ContentAt(before, Where(job, i)))
  {
    PlacesDiffer(job, i, k);
    AfterIsValid(job, start, k);
    hide WellFormed, Valid, SyncEntry, NoCollisionOn, PartialPath, Transfers;
    TransferLands(job, Entry(job, k), After(job, start, k).value);
  }

  // ---- Such a run ----

  /** A directory a, a file a/f in it and a file f beside it, with --partial-dir=a. */
  ghost predicate SendsThree(job: Job, inner: Bytes, outer: Bytes) {
    && |job.list.entries| == 3 && job.list.groups == []
    && job.list.entries[0].kind == Directory && job.list.entries[0].path == ["a"]
    && job.list.entries[1].kind == Regular && job.list.entries[1].path == ["a", "f"]
    && job.list.entries[2].kind == Regular && job.list.entries[2].path == ["f"]
    && job.src == map[["a", "f"] := inner, ["f"] := outer]
    && |inner| < Blocks.DEFAULT_BLOCK_SIZE && |outer| < Blocks.DEFAULT_BLOCK_SIZE && inner != outer
    && job.cfg.dest == [] && !job.cfg.ropts.dryRun && !job.cfg.ropts.AppendMode() && Wire.Inverts(job.cfg.codec)
    && job.cfg.ropts.partialDir == Some(Relative(["a"]))
  }

  /** The paths and partial files of the three entries. */
  lemma ThreePlaces(job: Job, inner: Bytes, outer: Bytes)
    requires SendsThree(job, inner, outer)
    ensures Where(job, 0) == ["a"] && Where(job, 1) == ["a", "f"] && Where(job, 2) == ["f"]
    ensures Parent(["a", "f"]) == ["a"] && Parent(["a"]) == [] && Parent(["f"]) == []
    ensures Spot(job.cfg, Entry(job, 1)) == ["a", "a", "f"] && Spot(job.cfg, Entry(job, 2)) == ["a", "f"]
    ensures Transfers(job.list, Entry(job, 1)) && Transfers(job.list, Entry(job, 2)) && !Transfers(job.list, Entry(job, 0))
    ensures ["f"] != ["a"] && ["f"] != ["a", "f"] && !(["f"] <= ["a"]) && !(["a", "f"] <= ["a"]) && ["a", "a", "f"] != ["a", "f"]
  {
    var a, af, aaf, f: Path := ["a"], ["a", "f"], ["a", "a", "f"], ["f"];
    assert |a| == |f| == 1 && |af| == 2 && |aaf| == 3;
    assert a[0][0] == 'a' && f[0][0] == 'f';
    assert Where(job, 0) == a && Where(job, 1) == af && Where(job, 2) == f;
    assert Base(af) == "f" && Base(f) == "f";
  }

  /** After the directory: it is there, and neither file is. */
  lemma AfterOne(job: Job, meta: Meta, inner: Bytes, outer: Bytes)
    requires SendsThree(job, inner, outer)
    ensures Valid(OneFile.Empty(meta)) && After(job, OneFile.Empty(meta), 1).Ok?
    ensures var fs := After(job, OneFile.Empty(meta), 1).value.st.fs;
      IsDir(fs, ["a"]) && Lookup(fs, ["a", "f"]) == None && Lookup(fs, ["f"]) == None && Lookup(fs, ["a", "a", "f"]) == None
  {
    ThreePlaces(job, inner, outer);
    var start, e := OneFile.Empty(meta), Entry(job, 0);
    OneFile.EmptyIsValid(meta);
    var st := Start(job, start).st;
    var root: Path, a: Path := [], ["a"];
    assert a[0][0] == 'a' && |root| == 0 && |a| == 1;
    assert Lookup(start, a) == None && IsDir(start, root);
    assert Lookup(start, ["a", "f"]) == None && Lookup(start, ["f"]) == None && Lookup(start, ["a", "a", "f"]) == None;
    FirstDirIsMade(job.cfg.proc, meta);
    hide MkdirAll, Lstat, Valid, WorksOn, PartialPath, Itemize.ItemizeDir, OneFile.Empty, IsDir, Lookup;
    LstatBelowDir(start, a);
    MkdirAllWorks(job.cfg.proc, start, a, a);
    assert ReceiveLocal(job.cfg, e, st).Ok?;
    assert After(job, start, 0) == Ok(Start(job, start));
  }

  lemma FirstDirIsMade(proc: Process, meta: Meta)
    ensures MkdirAll(proc, OneFile.Empty(meta), ["a"]).Ok?
  {
    var root: Path, a: Path := [], ["a"];
    assert |root| == 0 && |a| == 1;
    assert MkdirAll(proc, OneFile.Empty(meta), root) == Ok(OneFile.Empty(meta));
  }

  /** After the inner file: its bytes are in place, and f is not there yet. */
  lemma AfterTwo(job: Job, meta: Meta, inner: Bytes, outer: Bytes)
    requires SendsThree(job, inner, outer)
    ensures After(job, OneFile.Empty(meta), 2).Ok? && Valid(After(job, OneFile.Empty(meta), 2).value.st.fs)
    ensures var fs := After(job, OneFile.Empty(meta), 2).value.st.fs;
      ContentAt(fs, ["a", "f"]) == Some(inner) && Lookup(fs, ["f"]) == None
  {
    ThreePlaces(job, inner, outer);
    AfterOne(job, meta, inner, outer);
    var start, e := OneFile.Empty(meta), Entry(job, 1);
    AfterIsValid(job, start, 1);
    var pr := After(job, start, 1).value;
    assert SourceOf(job, e) == inner && e.path in job.src;
    ShortNeverCollides(job, e, pr.st.fs);
    hide NoCollisionOn, Valid, SyncEntry, PartialPath, Transfers;
    ExchangeSucceeds(job, e, pr);
    TransferLands(job, e, pr);
    EntrySpares(job, e, pr, ["f"]);
    SameKind(pr.st.fs, SyncEntry(job, e, pr).value.st.fs, ["f"]);
    AfterIsValid(job, start, 2);
  }

  /** All three entries succeed, and the finished a/f is gone again. */
  lemma PartialDirectoryTakesFinishedFile(job: Job, meta: Meta, inner: Bytes, outer: Bytes)
    requires SendsThree(job, inner, outer)
    ensures After(job, OneFile.Empty(meta), 2).Ok? && After(job, OneFile.Empty(meta), 3).Ok?
    ensures ContentAt(After(job, OneFile.Empty(meta), 2).value.st.fs, Where(job, 1)) == Some(inner)
    ensures ContentAt(After(job, OneFile.Empty(meta), 3).value.st.fs, Where(job, 1)) == None
  {
    ThreePlaces(job, inner, outer);
    AfterTwo(job, meta, inner, outer);
    var start, e := OneFile.Empty(meta), Entry(job, 2);
    var pr := After(job, start, 2).value;
    assert SourceOf(job, e) == outer && e.path in job.src;
    ShortNeverCollides(job, e, pr.st.fs);
    RootIsDir(pr.st.fs);
    hide NoCollisionOn, Valid, SyncEntry, PartialPath, Transfers;
    ExchangeSucceeds(job, e, pr);
    TransferLands(job, e, pr);
  }

  lemma RootIsDir(fs: FS)
    requires Valid(fs)
    ensures IsDir(fs, [])
  {
  }
}
