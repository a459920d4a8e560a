/** What the counters of created and transferred files say, told by the list, the destination at the start and the source. */
module Tallies {
  import opened Prelude
  import opened FileSystem
  import opened Entries
  import opened Delta
  import opened Receiver
  import opened SyncRun
  import opened Effects
  import opened Contents
  import opened PartialDirs
  import opened Accounting
  import opened Success
  import DryRun
  import Itemize
  import Wire

  predicate Absent(job: Job, e: FileEntry, fs: FS) {
    Lookup(fs, At(job.cfg, e)).None?
  }

  /** A file is written when nothing was there, or its new content differs from what the delta was taken against. */
  predicate Rewritten(job: Job, e: FileEntry, fs: FS) {
    Absent(job, e, fs) || BasisOf(job.cfg, e, fs) != FinalContent(job, e, ContentAt(fs, At(job.cfg, e)))
  }

  function IsNewFile(job: Job, fs: FS): FileEntry -> bool {
    (e: FileEntry) => Transfers(job.list, e) && Absent(job, e, fs)
  }

  function IsNewDirectory(job: Job, fs: FS): FileEntry -> bool {
    (e: FileEntry) => e.kind == Directory && Absent(job, e, fs)
  }

  function IsNewSymlink(job: Job, fs: FS): FileEntry -> bool {
    (e: FileEntry) => e.kind == Symlinked && job.cfg.attrs.links && Absent(job, e, fs)
  }

  function IsRewritten(job: Job, fs: FS): FileEntry -> bool {
    (e: FileEntry) => Transfers(job.list, e) && Rewritten(job, e, fs)
  }

  /** The sizes of the first k entries with a property, added up. */
  function Sizes(list: FileList, k: nat, p: FileEntry -> bool): int
    requires k <= |list.entries|
  {
    if k == 0 then 0 else Sizes(list, k - 1, p) + if p(list.entries[k - 1]) then list.entries[k - 1].size else 0
  }

  // ---- One entry ----

  /** What one entry adds, by what is there when it is its turn. */
  predicate Adds(job: Job, e: FileEntry, fs: FS, was: Stats, now: Stats) {
    && now.createdRegular == was.createdRegular + (if IsNewFile(job, fs)(e) then 1 else 0)
    && now.createdDirectories == was.createdDirectories + (if IsNewDirectory(job, fs)(e) then 1 else 0)
    && now.createdSymlinks == was.createdSymlinks + (if IsNewSymlink(job, fs)(e) then 1 else 0)
    && now.transferred == was.transferred + (if IsRewritten(job, fs)(e) then 1 else 0)
    && now.transferredSize == was.transferredSize + (if IsRewritten(job, fs)(e) then e.size else 0)
    && now.totalSize == was.totalSize + (if Transfers(job.list, e) then e.size else 0)
  }

  lemma LocalAdds(job: Job, e: FileEntry, pr: Progress)
    requires SyncEntry(job, e, pr).Ok? && !Transfers(job.list, e)
    ensures Adds(job, e, pr.st.fs, pr.st.stats, SyncEntry(job, e, pr).value.st.stats)
  {
    ExistingFound(pr.st.fs, At(job.cfg, e));
    hide Existing, MkdirAll, PlaceSymlink, Itemize.ItemizeDir, Itemize.ItemizeSymlink, Rewritten;
  }

  lemma ExistingFound(fs: FS, p: Path)
    ensures Existing(fs, p).Ok? ==> Existing(fs, p).value == Lookup(fs, p)
  {
  }

  lemma FileAdds(job: Job, e: FileEntry, pr: Progress)
    requires SyncEntry(job, e, pr).Ok? && Transfers(job.list, e) && Wire.Inverts(job.cfg.codec) && NoCollisionOn(job, e, pr.st.fs)
    ensures Adds(job, e, pr.st.fs, pr.st.stats, SyncEntry(job, e, pr).value.st.stats)
  {
    hide Prepare, Reply, ReadDelta, NewData, Commit, NoCollisionOn, LiteralBytes, MatchedBytes, FinalContent, BasisOf;
    var fs := pr.st.fs;
    var plan := Prepare(job.cfg, e, fs).value;
    var msg := Reply(job.cfg, job.src, e, SignatureFor(e, plan)).value;
    AnswerLands(job, e, fs, plan, msg);
    SkipKeepsBasis(plan, ReadDelta(job.cfg, e, msg).value);
    PlanIs(job.cfg, e, fs);
    SkipNeedsFile(job.cfg, e, plan);
  }

  lemma SkipNeedsFile(cfg: Config, e: FileEntry, plan: Plan)
    requires plan.action == ChooseAction(cfg, e, plan.was.Some?, plan.basis)
    ensures plan.action == AppendSkip ==> plan.was.Some?
  {
  }

  // ---- Whole runs ----

  /** What is at an entry's path and at its partial file's when it is its turn is what was there at the start. */
  lemma SameAtItsTurn(job: Job, start: FS, k: nat)
    requires WellFormed(job.list) && Valid(start) && Aloof(job) && Collisionless(job, start) && k < |job.list.entries| && After(job, start, k).Ok?
    ensures var e, fs := Entry(job, k), After(job, start, k).value.st.fs;
      && (Transfers(job.list, e) ==> NoCollisionOn(job, e, fs))
      && Absent(job, e, fs) == Absent(job, e, start)
      && (Transfers(job.list, e) ==> Rewritten(job, e, fs) == Rewritten(job, e, start))
  {
    hide WellFormed, Valid, Aloof, NoCollisionOn, FinalContent, SyncEntry, Transfers;
    if job.cfg.ropts.dryRun {
      DryRun.DryRunNeverWrites(job, start, k);
    } else {
      ConditionsSoFar(job, start, k, k);
      var fs := After(job, start, k).value.st.fs;
      SameWelcome(job, k, start, fs);
      SameShapeSameName(start, fs, Where(job, k));
    }
  }

  /** After k entries every counter is the count, or the size, of the entries it speaks of. */
  lemma {:induction false} TalliesSoFar(job: Job, start: FS, k: nat)
    requires WellFormed(job.list) && Valid(start) && Aloof(job) && Collisionless(job, start) && k <= |job.list.entries| && After(job, start, k).Ok?
    ensures var stats := After(job, start, k).value.st.stats;
      && stats.createdRegular == Count(job.list, k, IsNewFile(job, start))
      && stats.createdDirectories == Count(job.list, k, IsNewDirectory(job, start))
      && stats.createdSymlinks == Count(job.list, k, IsNewSymlink(job, start))
      && stats.transferred == Count(job.list, k, IsRewritten(job, start))
      && stats.transferredSize == Sizes(job.list, k, IsRewritten(job, start))
      && stats.totalSize == Sizes(job.list, k, IsTransfer(job.list))
  {
    hide WellFormed, Valid, Aloof, NoCollisionOn, SyncEntry, Absent, Rewritten, Transfers;
    if k > 0 {
      TalliesSoFar(job, start, k - 1);
      SameAtItsTurn(job, start, k - 1);
      var e, pr := Entry(job, k - 1), After(job, start, k - 1).value;
      if Transfers(job.list, e) {
        FileAdds(job, e, pr);
      } else {
        LocalAdds(job, e, pr);
      }
    }
  }

  /**
   * The counters of a successful run, dry or not: files, directories and
   * symlinks created are those absent at the start, files transferred are the
   * absent ones and those whose content changes, and the sizes are theirs.
   */
  lemma RunTallies(job: Job, start: FS)
    requires WellFormed(job.list) && Valid(start) && Aloof(job) && Collisionless(job, start) && Run(job, start).Ok?
    ensures var stats, n := Run(job, start).value.st.stats, |job.list.entries|;
      && stats.createdRegular == Count(job.list, n, IsNewFile(job, start))
      && stats.createdDirectories == Count(job.list, n, IsNewDirectory(job, start))
      && stats.createdSymlinks == Count(job.list, n, IsNewSymlink(job, start))
      && stats.transferred == Count(job.list, n, IsRewritten(job, start))
      && stats.transferredSize == Sizes(job.list, n, IsRewritten(job, start))
      && stats.totalSize == Sizes(job.list, n, IsTransfer(job.list))
  {
    hide WellFormed, Valid, Aloof, Collisionless, After, Passes;
    TalliesSoFar(job, start, |job.list.entries|);
  }
}
