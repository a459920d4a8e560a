/** The --stats counters over whole runs (internal/pipeline/stats.go). */
module Accounting {
  import opened Prelude
  import opened FileSystem
  import opened Entries
  import opened Delta
  import opened Receiver
  import opened SyncRun
  import opened Effects
  import opened Runs
  import opened Idempotence
  import opened Contents
  import opened PartialDirs
  import DryRun
  import Wire

  /** How many of the first k entries satisfy a property of the entry. */
  function Count(list: FileList, k: nat, p: FileEntry -> bool): nat
    requires k <= |list.entries|
  {
    if k == 0 then 0 else Count(list, k - 1, p) + if p(list.entries[k - 1]) then 1 else 0
  }

  function IsTransfer(list: FileList): FileEntry -> bool {
    (e: FileEntry) => Transfers(list, e)
  }

  function IsDirectory(): FileEntry -> bool {
    (e: FileEntry) => e.kind == Directory
  }

  function IsSymlink(): FileEntry -> bool {
    (e: FileEntry) => e.kind == Symlinked
  }

  function IsSecondary(list: FileList): FileEntry -> bool {
    (e: FileEntry) => e.kind == Regular && Secondary(list.groups, e.path)
  }

  /** Symlinks count only with --links. */
  function SymlinksCounted(job: Job, k: nat): nat
    requires k <= |job.list.entries|
  {
    if job.cfg.attrs.links then Count(job.list, k, IsSymlink()) else 0
  }

  lemma EntryCounts(job: Job, e: FileEntry, pr: Progress)
    requires SyncEntry(job, e, pr).Ok?
    ensures var was, now := pr.st.stats, SyncEntry(job, e, pr).value.st.stats;
      && now.regular == was.regular + (if Transfers(job.list, e) then 1 else 0)
      && now.directories == was.directories + (if e.kind == Directory then 1 else 0)
      && now.symlinks == was.symlinks + (if e.kind == Symlinked && job.cfg.attrs.links then 1 else 0)
  {
    hide Prepare, Reply, ReadDelta, NewData, Commit, Existing, PlaceSymlink, LiteralBytes, MatchedBytes;
  }

  /** After k entries of any run, dry or not, each counter is the number of entries of its kind. */
  lemma {:induction false} KindsCounted(job: Job, start: FS, k: nat)
    requires k <= |job.list.entries| && After(job, start, k).Ok?
    ensures var stats := After(job, start, k).value.st.stats;
      && stats.regular == Count(job.list, k, IsTransfer(job.list))
      && stats.directories == Count(job.list, k, IsDirectory())
      && stats.symlinks == SymlinksCounted(job, k)
  {
    hide SyncEntry;
    if k > 0 {
      KindsCounted(job, start, k - 1);
      EntryCounts(job, Entry(job, k - 1), After(job, start, k - 1).value);
    }
  }

  lemma {:induction false} KindsPartition(list: FileList, k: nat)
    requires k <= |list.entries|
    ensures Count(list, k, IsTransfer(list)) + Count(list, k, IsDirectory())
          + Count(list, k, IsSymlink()) + Count(list, k, IsSecondary(list)) == k
  {
    if k > 0 {
      KindsPartition(list, k - 1);
    }
  }

  /** Every entry is counted once: by type, as a hard-link member, or as a symlink ignored without --links. */
  lemma EntriesConserved(job: Job, start: FS)
    requires Run(job, start).Ok?
    ensures var stats := Run(job, start).value.st.stats;
      stats.regular + stats.directories + stats.symlinks + Count(job.list, |job.list.entries|, IsSecondary(job.list))
        + (if job.cfg.attrs.links then 0 else Count(job.list, |job.list.entries|, IsSymlink()))
      == |job.list.entries|
  {
    KindsCounted(job, start, |job.list.entries|);
    KindsPartition(job.list, |job.list.entries|);
  }

  // ---- Bytes ----

  /** An append mode leaves alone what is already as long as the source's file. */
  predicate Skipped(job: Job, e: FileEntry, fs: FS) {
    && job.cfg.ropts.AppendMode()
    && ContentAt(fs, At(job.cfg, e)).Some?
    && |ContentAt(fs, At(job.cfg, e)).value| >= e.size
  }

  /** The sizes of the first k files that are skipped, each by what the destination holds when it is its turn. */
  function SkippedSizes(job: Job, start: FS, k: nat): int
    requires k <= |job.list.entries|
  {
    if k == 0 then 0
    else
      var e := Entry(job, k - 1);
      SkippedSizes(job, start, k - 1) + if Transfers(job.list, e) && Skipped(job, e, FsAfter(job, start, k - 1)) then e.size else 0
  }

  /** Decompression inverts compression, and no basis collides with its source at the time it is used. */
  ghost predicate CollisionlessThroughout(job: Job, start: FS) {
    && Wire.Inverts(job.cfg.codec)
    && forall k :: 0 <= k < |job.list.entries| && Transfers(job.list, Entry(job, k)) ==> NoCollisionOn(job, Entry(job, k), FsAfter(job, start, k))
  }

  /** Literal and matched bytes of one exchange make up the source's length, unless it was skipped. */
  lemma ExchangeConserves(job: Job, e: FileEntry, fs: FS, plan: Plan, msg: Message)
    requires Wire.Inverts(job.cfg.codec) && NoCollisionOn(job, e, fs) && e.path in job.src && e.size == |job.src[e.path]|
    requires Prepare(job.cfg, e, fs) == Ok(plan) && Reply(job.cfg, job.src, e, SignatureFor(e, plan)) == Ok(msg)
    ensures ReadDelta(job.cfg, e, msg).Ok?
    ensures var ops := ReadDelta(job.cfg, e, msg).value;
      LiteralBytes(ops) + MatchedBytes(ops, plan.sig.blockSize, |plan.basis|) == if Skipped(job, e, fs) then 0 else e.size
  {
    PlanIs(job.cfg, e, fs);
    AnswerLands(job, e, fs, plan, msg);
    var ops := ReadDelta(job.cfg, e, msg).value;
    hide Prepare, NoCollisionOn, Wire.Decode, Wire.Encode, DeltaOf, PartialPath;
    if plan.action == AppendSkip {
      Wire.WireRoundTrip(job.cfg.codec, [], Render(e.path), job.cfg.copts);
    } else {
      CountsConserve(plan.basis, ops, plan.sig.blockSize);
    }
  }

  lemma LocalKeepsBytes(job: Job, e: FileEntry, pr: Progress)
    requires !Transfers(job.list, e) && SyncEntry(job, e, pr).Ok?
    ensures var was, now := pr.st.stats, SyncEntry(job, e, pr).value.st.stats;
      now.literal == was.literal && now.matched == was.matched && now.totalSize == was.totalSize
  {
  }

  lemma TransferKeepsBalance(job: Job, e: FileEntry, pr: Progress)
    requires Wire.Inverts(job.cfg.codec) && NoCollisionOn(job, e, pr.st.fs) && e.path in job.src && e.size == |job.src[e.path]|
    requires Transfers(job.list, e) && SyncEntry(job, e, pr).Ok?
    ensures var was, now := pr.st.stats, SyncEntry(job, e, pr).value.st.stats;
      && now.totalSize == was.totalSize + e.size
      && now.literal + now.matched == was.literal + was.matched + if Skipped(job, e, pr.st.fs) then 0 else e.size
  {
    hide Prepare, Reply, ReadDelta, NewData, Commit, Skipped, NoCollisionOn, LiteralBytes, MatchedBytes;
    var plan := Prepare(job.cfg, e, pr.st.fs).value;
    var msg := Reply(job.cfg, job.src, e, SignatureFor(e, plan)).value;
    ExchangeConserves(job, e, pr.st.fs, plan, msg);
  }

  lemma {:induction false} BytesSoFar(job: Job, start: FS, k: nat)
    requires CollisionlessThroughout(job, start) && Stable(job) && k <= |job.list.entries| && After(job, start, k).Ok?
    ensures var stats := After(job, start, k).value.st.stats;
      stats.literal + stats.matched + SkippedSizes(job, start, k) == stats.totalSize
  {
    hide SyncEntry, NoCollisionOn;
    if k > 0 {
      BytesSoFar(job, start, k - 1);
      var e, pr := Entry(job, k - 1), After(job, start, k - 1).value;
      if Transfers(job.list, e) {
        assert NoCollisionOn(job, e, FsAfter(job, start, k - 1));
        TransferKeepsBalance(job, e, pr);
      } else {
        LocalKeepsBytes(job, e, pr);
      }
    }
  }

  /**
   * Over every successful run - dry or not, with a partial directory or not,
   * aliased or not - every source byte was counted once, as literal or
   * matched, except for files an append mode skipped.
   */
  lemma BytesConserved(job: Job, start: FS)
    requires CollisionlessThroughout(job, start) && Stable(job) && Run(job, start).Ok?
    ensures var stats := Run(job, start).value.st.stats;
      && stats.literal + stats.matched + SkippedSizes(job, start, |job.list.entries|) == stats.totalSize
      && (!job.cfg.ropts.AppendMode() ==> stats.literal + stats.matched == stats.totalSize)
  {
    BytesSoFar(job, start, |job.list.entries|);
    if !job.cfg.ropts.AppendMode() {
      NothingSkipped(job, start, |job.list.entries|);
    }
  }

  lemma {:induction false} NothingSkipped(job: Job, start: FS, k: nat)
    requires k <= |job.list.entries| && !job.cfg.ropts.AppendMode()
    ensures SkippedSizes(job, start, k) == 0
  {
    if k > 0 {
      NothingSkipped(job, start, k - 1);
    }
  }

  /** It is enough that nothing collides at the start, if the run is dry or partial files keep clear of the listed paths. */
  lemma CollisionlessIsEnough(job: Job, start: FS)
    requires Run(job, start).Ok? && (Clear(job, start) || (job.cfg.ropts.dryRun && Collisionless(job, start)))
    ensures CollisionlessThroughout(job, start)
  {
    forall k | 0 <= k < |job.list.entries| && Transfers(job.list, Entry(job, k)) ensures NoCollisionOn(job, Entry(job, k), FsAfter(job, start, k)) {
      hide WellFormed, Valid, Apart, NoCollisionOn, Transfers, SyncEntry, Passes;
      EarlierSucceeds(job, start, k, |job.list.entries|);
      if job.cfg.ropts.dryRun {
        DryRun.DryRunNeverWrites(job, start, k);
      } else {
        AheadAsBefore(job, start, k, k);
        SameOutlook(job, Entry(job, k), start, FsAfter(job, start, k));
      }
    }
  }
}
