/** A dry run says and sends exactly what the real run would, and writes nothing (internal/pipeline/receiver.go:37-41). */
module DryRun {
  import opened Prelude
  import opened FileSystem
  import opened Entries
  import opened Itemize
  import opened Receiver
  import opened SyncRun
  import opened Effects
  import opened Runs

  /** The same transfer with --dry-run. */
  function Dry(job: Job): Job {
    job.(cfg := job.cfg.(ropts := job.cfg.ropts.(dryRun := true)))
  }

  /** A progress whose writes never happened. */
  function Unwritten(pr: Progress, start: FS): Progress {
    pr.(st := pr.st.(fs := start))
  }

  /** Planning looks at the entry's own path only. */
  lemma PrepareReadsOnlyItsPath(job: Job, e: FileEntry, a: FS, b: FS)
    requires job.cfg.ropts.partialDir.None? && Lstat(a, At(job.cfg, e)) == Lstat(b, At(job.cfg, e))
    ensures Prepare(Dry(job).cfg, e, a) == Prepare(job.cfg, e, b)
  {
  }

  lemma LocalAgrees(job: Job, e: FileEntry, st: State, start: FS)
    requires !job.cfg.ropts.dryRun && ReceiveLocal(job.cfg, e, st).Ok?
    requires (e.kind == Regular || Lstat(st.fs, At(job.cfg, e)) == Lstat(start, At(job.cfg, e)))
    ensures ReceiveLocal(Dry(job).cfg, e, st.(fs := start)) == Ok(ReceiveLocal(job.cfg, e, st).value.(fs := start))
  {
    hide MkdirAll, PlaceSymlink, Lstat, ItemizeDir, ItemizeSymlink, Report;
    ReportIgnoresDryRun(job, e);
  }

  lemma ReportIgnoresDryRun(job: Job, e: FileEntry)
    ensures forall code :: Report(Dry(job).cfg.ropts, code, e) == Report(job.cfg.ropts, code, e)
  {
  }

  lemma CompleteAgrees(job: Job, e: FileEntry, plan: Plan, msg: Message, st: State, start: FS)
    requires !job.cfg.ropts.dryRun && TakeDelta(job.cfg, e, plan, msg, st).Ok?
    ensures TakeDelta(Dry(job).cfg, e, plan, msg, st.(fs := start)) == Ok(TakeDelta(job.cfg, e, plan, msg, st).value.(fs := start))
  {
    hide Commit, ItemizeFile, Report, NewData, CountRegular;
    ReportIgnoresDryRun(job, e);
  }

  lemma ReplyAgrees(job: Job, e: FileEntry, msg: Message)
    ensures Reply(Dry(job).cfg, job.src, e, msg) == Reply(job.cfg, job.src, e, msg)
  {
  }

  lemma EntryAgrees(job: Job, e: FileEntry, pr: Progress, start: FS)
    requires Plain(job.cfg) && SyncEntry(job, e, pr).Ok?
    requires (e.kind == Regular && Secondary(job.list.groups, e.path)) || Lstat(pr.st.fs, At(job.cfg, e)) == Lstat(start, At(job.cfg, e))
    ensures SyncEntry(Dry(job), e, Unwritten(pr, start)) == Ok(Unwritten(SyncEntry(job, e, pr).value, start))
  {
    hide Prepare, Reply, TakeDelta, ReceiveLocal;
    if Transfers(job.list, e) {
      PrepareReadsOnlyItsPath(job, e, start, pr.st.fs);
      var plan := Prepare(job.cfg, e, pr.st.fs).value;
      var sig := SignatureFor(e, plan);
      ReplyAgrees(job, e, sig);
      var msg := Reply(job.cfg, job.src, e, sig).value;
      CompleteAgrees(job, e, plan, msg, CountSent(job.cfg, sig, pr.st), start);
    } else {
      LocalAgrees(job, e, pr.st, start);
    }
  }

  /** Entry by entry the dry run keeps the real run's reports, counts and messages, and the file system it began with. */
  lemma {:induction false} PrefixAgrees(job: Job, start: FS, k: nat)
    requires Sound(job, start) && k <= |job.list.entries| && After(job, start, k).Ok?
    ensures After(Dry(job), start, k) == Ok(Unwritten(After(job, start, k).value, start))
  {
    hide SyncEntry, WellFormed, Safe;
    if k > 0 {
      PrefixAgrees(job, start, k - 1);
      NothingAheadTouched(job, start, k - 1);
      var e, pr := Entry(job, k - 1), After(job, start, k - 1).value;
      if Own(job, k - 1) {
        assert Untouched(start, pr.st.fs, Where(job, k - 1));
      }
      EntryAgrees(job, e, pr, start);
    }
  }

  /**
   * If the real run would succeed on an unaliased destination without a partial
   * directory, the dry run succeeds, exchanges the same messages, reports the
   * same lines and counts, and leaves the file system as it is.
   */
  lemma DryRunSimulates(job: Job, start: FS)
    requires Sound(job, start) && Run(job, start).Ok?
    ensures Run(Dry(job), start).Ok?
    ensures var planned, actual := Run(Dry(job), start).value, Run(job, start).value;
      && planned.sent == actual.sent && planned.delivered == actual.delivered
      && planned.st.lines == actual.st.lines && planned.st.stats == actual.st.stats
      && planned.st.fs == start
  {
    PrefixAgrees(job, start, |job.list.entries|);
  }

  /** No dry run writes; Failures.DryRunWritesNothing says so of any answers. */
  lemma {:induction false} DryRunNeverWrites(job: Job, start: FS, k: nat)
    requires job.cfg.ropts.dryRun && k <= |job.list.entries| && After(job, start, k).Ok?
    ensures After(job, start, k).value.st.fs == start
  {
    if k > 0 {
      DryRunNeverWrites(job, start, k - 1);
    }
  }
}
