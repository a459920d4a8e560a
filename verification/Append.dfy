/** --append and --append-verify over whole runs. */
module Append {
  import opened Prelude
  import opened FileSystem
  import opened Entries
  import opened Attributes
  import opened Blocks
  import opened Delta
  import opened Receiver
  import opened SyncRun
  import opened Effects
  import opened Runs
  import opened FinalPasses
  import opened EndToEnd
  import opened Idempotence
  import Wire

  lemma TransferSettles(job: Job, start: FS, i: nat)
    requires Sound(job, start) && Honest(job, start) && Run(job, start).Ok?
    requires i < |job.list.entries| && Transfers(job.list, Entry(job, i))
    ensures ContentAt(Final(job, start), Where(job, i))
         == Some(FinalContent(job, Entry(job, i), ContentAt(start, Where(job, i))))
  {
    RunSettles(job, start, i);
  }

  /**
   * --append on a shorter file keeps what is there and adds the source's tail,
   * so the result is the source exactly when what was there is a prefix of it.
   */
  lemma AppendExtends(job: Job, start: FS, i: nat, was: Bytes)
    requires Sound(job, start) && Honest(job, start) && Stable(job) && Run(job, start).Ok?
    requires job.cfg.ropts.append && !job.cfg.ropts.appendVerify
    requires i < |job.list.entries| && Transfers(job.list, Entry(job, i))
    requires ContentAt(start, Where(job, i)) == Some(was) && |was| < Entry(job, i).size
    ensures var source := job.src[Entry(job, i).path];
      && |was| <= |source|
      && ContentAt(Final(job, start), Where(job, i)) == Some(was + source[|was|..])
      && (ContentAt(Final(job, start), Where(job, i)) == Some(source) <==> was <= source)
  {
    hide Run, Sound, Honest, Final, ContentAt;
    TransferSettles(job, start, i);
    PrefixExtended(was, job.src[Entry(job, i).path]);
  }

  lemma PrefixExtended(was: Bytes, source: Bytes)
    requires |was| <= |source|
    ensures was + source[|was|..] == source <==> was <= source
  {
    if was <= source {
      assert source == source[..|was|] + source[|was|..];
    } else {
      assert (was + source[|was|..])[..|was|] == was;
    }
  }

  /** --append-verify on a shorter file, and either mode on a new one, gives the source. */
  lemma AppendVerifyGivesSource(job: Job, start: FS, i: nat)
    requires Sound(job, start) && Honest(job, start) && Stable(job) && Run(job, start).Ok?
    requires job.cfg.ropts.AppendMode()
    requires i < |job.list.entries| && Transfers(job.list, Entry(job, i))
    requires match ContentAt(start, Where(job, i))
      case None => true
      case Some(was) => job.cfg.ropts.appendVerify && |was| < Entry(job, i).size
    ensures ContentAt(Final(job, start), Where(job, i)) == Some(job.src[Entry(job, i).path])
  {
    TransferSettles(job, start, i);
  }

  /** No append-mode run shortens a file, and every file ends at least as long as the source's. */
  lemma AppendNeverShortens(job: Job, start: FS, i: nat)
    requires Sound(job, start) && Honest(job, start) && Stable(job) && Run(job, start).Ok?
    requires job.cfg.ropts.AppendMode()
    requires i < |job.list.entries| && Transfers(job.list, Entry(job, i))
    ensures ContentAt(Final(job, start), Where(job, i)).Some?
    ensures |OrEmpty(ContentAt(start, Where(job, i)))| <= |ContentAt(Final(job, start), Where(job, i)).value|
    ensures Entry(job, i).size <= |ContentAt(Final(job, start), Where(job, i)).value|
  {
    hide Sound, Honest, Run, Final, Where, ContentAt;
    TransferSettles(job, start, i);
  }

  /** A file as long as the source makes the receiver ask for nothing. */
  lemma LongEnoughSkips(cfg: Config, e: FileEntry, fs: FS)
    requires Valid(fs) && cfg.ropts.partialDir.None? && cfg.ropts.AppendMode() && Prepare(cfg, e, fs).Ok?
    requires ContentAt(fs, At(cfg, e)).Some? && e.size <= |ContentAt(fs, At(cfg, e)).value|
    ensures Prepare(cfg, e, fs).value.action == AppendSkip
  {
    PlanReadsFile(cfg, e, fs);
  }

  /** Repeating an append-mode run skips every file: each is asked for with a skip and none is rewritten. */
  lemma RepeatedAppendSkips(job: Job, next: Job, start: FS, i: nat)
    requires Sound(job, start) && Honest(job, start) && Stable(job) && Run(job, start).Ok?
    requires job.cfg.ropts.AppendMode() && Again(job, next)
    requires i < |job.list.entries| && Transfers(job.list, Entry(job, i))
    requires After(next, Final(job, start), i + 1).Ok?
    ensures Prepare(next.cfg, Entry(job, i), FsAfter(next, Final(job, start), i)).Ok?
    ensures Prepare(next.cfg, Entry(job, i), FsAfter(next, Final(job, start), i)).value.action == AppendSkip
    ensures ContentAt(FsAfter(next, Final(job, start), i), Where(job, i)) == ContentAt(Final(job, start), Where(job, i))
  {
    var done := Final(job, start);
    AppendNeverShortens(job, start, i);
    FinalIsSafe(job, next, start);
    hide Run, Safe, WellFormed, Prepare, Reply, TakeDelta;
    assert After(next, done, i).Ok?;
    NothingAheadTouched(next, done, i);
    StillThere(next, done, FsAfter(next, done, i), i);
    LongEnoughSkips(next.cfg, Entry(next, i), FsAfter(next, done, i));
  }

  lemma StillThere(job: Job, start: FS, fs: FS, i: nat)
    requires i < |job.list.entries| && Transfers(job.list, Entry(job, i)) && Ahead(job, start, fs, i)
    ensures ContentAt(fs, Where(job, i)) == ContentAt(start, Where(job, i)) && Valid(fs)
  {
    assert Untouched(start, fs, Where(job, i));
  }
}
