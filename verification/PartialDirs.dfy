/**
 * Whole runs by contents alone: with a partial directory or without, and on
 * a destination that may be aliased. What decides is whether a partial file
 * lies at a listed path.
 */
module PartialDirs {
  import opened Prelude
  import opened FileSystem
  import opened Entries
  import opened Attributes
  import opened Receiver
  import opened SyncRun
  import opened Effects
  import opened Runs
  import opened FinalPasses
  import opened EndToEnd
  import opened Contents
  import Wire

  /** No transferred entry's partial file lies at a listed path. */
  ghost predicate Apart(job: Job) {
    job.cfg.ropts.partialDir.Some? ==>
      forall i, j :: 0 <= i < |job.list.entries| && Transfers(job.list, Entry(job, i)) && 0 <= j < |job.list.entries| ==>
        Spot(job.cfg, Entry(job, i)) != Where(job, j)
  }

  /** Decompression inverts compression, and no basis in use collides with the source it is compared with. */
  ghost predicate Collisionless(job: Job, fs: FS) {
    && Wire.Inverts(job.cfg.codec)
    && forall i :: 0 <= i < |job.list.entries| && Transfers(job.list, Entry(job, i)) ==> NoCollisionOn(job, Entry(job, i), fs)
  }

  /** A list as Walk sends it, a tree, settings that write, partial files out of the way. */
  ghost predicate Clear(job: Job, fs: FS) {
    WellFormed(job.list) && Valid(fs) && !job.cfg.ropts.dryRun && Apart(job) && Collisionless(job, fs)
  }

  /** A sound and honest run without a partial directory is a special case. */
  lemma SoundIsClear(job: Job, fs: FS)
    requires Sound(job, fs) && Honest(job, fs)
    ensures Clear(job, fs)
  {
    hide WellFormed, Valid, Distinct;
    forall i | 0 <= i < |job.list.entries| && Transfers(job.list, Entry(job, i)) ensures NoCollisionOn(job, Entry(job, i), fs) {
      assert NoCollision(job, Entry(job, i), fs);
    }
  }

  // ---- Places ----

  lemma PlacesDiffer(job: Job, i: nat, j: nat)
    requires WellFormed(job.list) && i < |job.list.entries| && j < |job.list.entries| && i != j
    ensures Where(job, i) != Where(job, j)
  {
    if i < j {
      Order(job, i, j);
    } else {
      Order(job, j, i);
    }
  }

  /** No listed path lies above a transferred one's, or under it. */
  lemma FilesStandAlone(job: Job, i: nat, k: nat)
    requires WellFormed(job.list) && i < |job.list.entries| && k < |job.list.entries| && i != k && Entry(job, i).kind == Regular
    ensures !(Where(job, i) < Where(job, k))
  {
    if i < k {
      Order(job, i, k);
    } else {
      Order(job, k, i);
    }
  }

  lemma SpotsDiffer(job: Job, i: nat, k: nat)
    requires WellFormed(job.list) && i < |job.list.entries| && k < |job.list.entries| && i != k && job.cfg.ropts.partialDir.Some?
    ensures Spot(job.cfg, Entry(job, i)) != Spot(job.cfg, Entry(job, k))
  {
    PlacesDiffer(job, i, k);
    var p, q, r, s := Where(job, i), Where(job, k), Entry(job, i).path, Entry(job, k).path;
    assert r != [] && s != [] && p != [] && q != [];
    match job.cfg.ropts.partialDir.value
    case Absolute(d) =>
      assert (d + r)[|d|..] == r && (d + s)[|d|..] == s;
    case Relative(d) => RelativeSpots(p, q, d);
  }

  lemma RelativeSpots(p: Path, q: Path, d: Path)
    requires p != [] && q != [] && p != q
    ensures Parent(p) + d + [Base(p)] != Parent(q) + d + [Base(q)]
  {
    var a, b := Parent(p) + d + [Base(p)], Parent(q) + d + [Base(q)];
    assert p == Parent(p) + [Base(p)] && q == Parent(q) + [Base(q)];
    assert a[..|p| - 1] == Parent(p) && b[..|q| - 1] == Parent(q);
    assert a[|a| - 1] == Base(p) && b[|b| - 1] == Base(q);
    assert |a| == |p| + |d| && |b| == |q| + |d|;
  }

  // ---- After any number of entries ----

  /** What an entry's handling depends on is as it was. */
  predicate AsBefore(job: Job, e: FileEntry, start: FS, fs: FS) {
    && ShapeAt(fs, At(job.cfg, e)) == ShapeAt(start, At(job.cfg, e))
    && (job.cfg.ropts.partialDir.Some? ==> ContentAt(fs, Spot(job.cfg, e)) == ContentAt(start, Spot(job.cfg, e)))
  }

  lemma SameOutlook(job: Job, e: FileEntry, start: FS, fs: FS)
    requires AsBefore(job, e, start, fs)
    ensures ContentAt(fs, At(job.cfg, e)) == ContentAt(start, At(job.cfg, e))
    ensures Landed(job, e, fs) == Landed(job, e, start) && Drops(job, e, fs) == Drops(job, e, start)
    ensures Held(job, e, fs) == Held(job, e, start) && NoCollisionOn(job, e, fs) == NoCollisionOn(job, e, start)
  {
    SameShapeSameContent(start, fs, At(job.cfg, e));
    hide FinalContent, PartialPath;
  }

  lemma SparesAhead(job: Job, start: FS, pr: Progress, k: nat, i: nat)
    requires WellFormed(job.list) && Apart(job) && Valid(pr.st.fs) && k < i < |job.list.entries|
    requires Transfers(job.list, Entry(job, i)) && SyncEntry(job, Entry(job, k), pr).Ok?
    requires AsBefore(job, Entry(job, i), start, pr.st.fs)
    ensures AsBefore(job, Entry(job, i), start, SyncEntry(job, Entry(job, k), pr).value.st.fs)
  {
    PlacesDiffer(job, k, i);
    FilesStandAlone(job, i, k);
    if job.cfg.ropts.partialDir.Some? {
      SpotsDiffer(job, i, k);
      if Transfers(job.list, Entry(job, k)) {
        assert Spot(job.cfg, Entry(job, k)) != Where(job, i);
      }
      assert Spot(job.cfg, Entry(job, i)) != Where(job, k);
    }
    hide WellFormed, Valid, SyncEntry, Apart, PartialPath, ContentAt, ShapeAt;
    StepSpares(job, Entry(job, k), pr, Where(job, i));
    if job.cfg.ropts.partialDir.Some? {
      StepSpares(job, Entry(job, k), pr, Spot(job.cfg, Entry(job, i)));
    }
  }

  /** EntrySpares, where the entry's partial file matters only if it is transferred. */
  lemma StepSpares(job: Job, e: FileEntry, pr: Progress, q: Path)
    requires Valid(pr.st.fs) && SyncEntry(job, e, pr).Ok? && q != At(job.cfg, e)
    requires job.cfg.ropts.partialDir.Some? && Transfers(job.list, e) ==> q != Spot(job.cfg, e)
    ensures Spared(pr.st.fs, SyncEntry(job, e, pr).value.st.fs, At(job.cfg, e), q)
  {
    hide Valid, Spared, Prepare, Reply, TakeDelta, ReceiveLocal, Transfers, PartialPath;
    if Transfers(job.list, e) {
      EntrySpares(job, e, pr, q);
    } else {
      LocalSpares(job.cfg, e, pr.st, q);
    }
  }

  lemma {:induction false} AheadAsBefore(job: Job, start: FS, k: nat, i: nat)
    requires WellFormed(job.list) && Apart(job) && Valid(start) && k <= i < |job.list.entries|
    requires Transfers(job.list, Entry(job, i)) && After(job, start, k).Ok?
    ensures AsBefore(job, Entry(job, i), start, After(job, start, k).value.st.fs)
  {
    hide WellFormed, Valid, SyncEntry, Apart, AsBefore, Transfers;
    if k > 0 {
      AheadAsBefore(job, start, k - 1, i);
      AfterIsValid(job, start, k - 1);
      SparesAhead(job, start, After(job, start, k - 1).value, k - 1, i);
    } else {
      NothingYet(job, Entry(job, i), start);
    }
  }

  lemma NothingYet(job: Job, e: FileEntry, start: FS)
    ensures AsBefore(job, e, start, start)
  {
  }

  /** Entries behind hold what they landed on, entries ahead what they held. */
  lemma {:induction false} ContentsSoFar(job: Job, start: FS, k: nat, i: nat)
    requires Clear(job, start) && k <= |job.list.entries| && After(job, start, k).Ok?
    requires i < |job.list.entries| && Transfers(job.list, Entry(job, i))
    ensures ContentAt(After(job, start, k).value.st.fs, Where(job, i)) ==
      if i < k then Landed(job, Entry(job, i), start) else ContentAt(start, Where(job, i))
  {
    hide WellFormed, Valid, SyncEntry, Landed, ContentAt, Transfers, NoCollisionOn;
    if k <= i {
      AheadAsBefore(job, start, k, i);
      SameOutlook(job, Entry(job, i), start, After(job, start, k).value.st.fs);
    } else {
      var pr := After(job, start, k - 1).value;
      AfterIsValid(job, start, k - 1);
      if i == k - 1 {
        AheadAsBefore(job, start, k - 1, i);
        SameOutlook(job, Entry(job, i), start, pr.st.fs);
        TransferLands(job, Entry(job, i), pr);
        DropsElsewhere(job, i, pr.st.fs);
      } else {
        ContentsSoFar(job, start, k - 1, i);
        PlacesDiffer(job, i, k - 1);
        hide Clear;
        StepSpares(job, Entry(job, k - 1), pr, Where(job, i));
      }
    }
  }

  lemma DropsElsewhere(job: Job, i: nat, fs: FS)
    requires Apart(job) && i < |job.list.entries| && Transfers(job.list, Entry(job, i))
    ensures Drops(job, Entry(job, i), fs) ==> Spot(job.cfg, Entry(job, i)) != At(job.cfg, Entry(job, i))
  {
    if job.cfg.ropts.partialDir.Some? {
      assert Spot(job.cfg, Entry(job, i)) != Where(job, i);
    }
  }

  // ---- Whole runs ----

  lemma KeptBytes(job: Job, from: FS, fs: FS, q: Path)
    requires Keeps(job, from, fs) && !Member(job, q) && Valid(from)
    ensures ContentAt(fs, q) == ContentAt(from, q)
  {
    KeptName(job, from, fs, q);
    hide Keeps, Member, Valid;
  }

  lemma KeptName(job: Job, from: FS, fs: FS, q: Path)
    requires Keeps(job, from, fs) && !Member(job, q) && Valid(from)
    ensures q in from.names ==> ShapeAt(fs, q) == ShapeAt(from, q)
    ensures q !in from.names && q in fs.names ==> IsDir(fs, q)
  {
    hide Member, AboveMember;
  }

  lemma {:induction false} DirPassKeepsContent(cfg: Config, entries: seq<FileEntry>, k: nat, fs: FS, q: Path)
    requires k <= |entries| && DirPass(cfg, entries, k, fs).Ok?
    ensures ContentAt(DirPass(cfg, entries, k, fs).value, q) == ContentAt(fs, q)
    decreases k
  {
    hide ContentAt, ApplyPlain;
    if k > 0 {
      var e := entries[k - 1];
      if e.kind == Directory {
        PlainKeepsContent(fs, e, At(cfg, e), cfg.attrs, q);
        DirPassKeepsContent(cfg, entries, k - 1, ApplyPlain(fs, e, At(cfg, e), cfg.attrs).value, q);
      } else {
        DirPassKeepsContent(cfg, entries, k - 1, fs, q);
      }
    }
  }

  lemma FileIsNoMember(job: Job, i: nat)
    requires WellFormed(job.list) && i < |job.list.entries| && Transfers(job.list, Entry(job, i))
    ensures !Member(job, Where(job, i))
  {
    hide WellFormed;
    OwnIsNoMember(job, i);
  }

  /**
   * With any partial directory that keeps clear of the listed paths, every
   * transferred path ends as Landed says: the final content, or what it held
   * where the partial file already was the source and something was there.
   */
  lemma EveryFileLands(job: Job, start: FS, i: nat)
    requires Clear(job, start) && Run(job, start).Ok?
    requires i < |job.list.entries| && Transfers(job.list, Entry(job, i))
    ensures ContentAt(Final(job, start), Where(job, i)) == Landed(job, Entry(job, i), start)
  {
    var n := |job.list.entries|;
    ContentsSoFar(job, start, n, i);
    var mid := After(job, start, n).value.st.fs;
    AfterIsValid(job, start, n);
    hide WellFormed, Valid, LinkPass, DirPass, After, Landed, ContentAt, Keeps, LinkedUpTo, Member, Apart, Collisionless;
    var linked := LinkPass(job.cfg, job.list.groups, |job.list.groups|, mid).value;
    LinkPassHolds(job, mid, |job.list.groups|);
    FileIsNoMember(job, i);
    KeptBytes(job, mid, linked, Where(job, i));
    DirPassKeepsContent(job.cfg, job.list.entries, n, linked, Where(job, i));
  }

  /** Hence, outside the append modes, the source arrives exactly at the paths that are not held by a finished partial file with other bytes. */
  lemma SourceArrivesUnlessHeld(job: Job, start: FS, i: nat)
    requires Clear(job, start) && Run(job, start).Ok? && !job.cfg.ropts.AppendMode()
    requires i < |job.list.entries| && Transfers(job.list, Entry(job, i))
    ensures Entry(job, i).path in job.src
    ensures ContentAt(Final(job, start), Where(job, i)) == Some(job.src[Entry(job, i).path])
       <==> !(Held(job, Entry(job, i), start) && ContentAt(start, Where(job, i)) != Some(job.src[Entry(job, i).path]))
  {
    hide Clear, Run, Final, Held, ContentAt;
    EveryFileLands(job, start, i);
    RunIsAfter(job, start);
    SourceWasRead(job, start, |job.list.entries|, i);
  }

  lemma RunIsAfter(job: Job, start: FS)
    requires Run(job, start).Ok?
    ensures After(job, start, |job.list.entries|).Ok?
  {
  }

  // ---- One entry, wherever its partial file lies ----

  /** What keeps a transferred path from holding the source: a finished partial file beside other bytes, or a partial file at the very path. */
  predicate Missed(job: Job, e: FileEntry, fs: FS) {
    match PartialBasis(job.cfg, e, fs)
    case None => false
    case Some(bytes) =>
      if bytes == SourceOf(job, e) then Lookup(fs, At(job.cfg, e)).Some? && ContentAt(fs, At(job.cfg, e)) != Some(bytes)
      else Spot(job.cfg, e) == At(job.cfg, e)
  }

  /** The exchange with a partial directory, exactly: the source is in place unless the entry is missed. */
  lemma PartialEntryExact(job: Job, e: FileEntry, pr: Progress)
    requires Valid(pr.st.fs) && !job.cfg.ropts.dryRun && !job.cfg.ropts.AppendMode()
    requires Wire.Inverts(job.cfg.codec) && NoCollisionOn(job, e, pr.st.fs)
    requires Transfers(job.list, e) && SyncEntry(job, e, pr).Ok?
    ensures ContentAt(SyncEntry(job, e, pr).value.st.fs, At(job.cfg, e)) == Some(SourceOf(job, e)) <==> !Missed(job, e, pr.st.fs)
  {
    hide Valid, SyncEntry, NoCollisionOn, PartialPath, Transfers;
    TransferLands(job, e, pr);
  }
}
