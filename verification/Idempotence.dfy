/** Syncing again right after a successful sync rewrites no file and reports only hard-link members. */
module Idempotence {
  import opened Prelude
  import opened FileSystem
  import opened Entries
  import opened Attributes
  import opened Itemize
  import opened Blocks
  import opened Delta
  import opened Receiver
  import opened SyncRun
  import opened Effects
  import opened Runs
  import opened FinalPasses
  import opened EndToEnd
  import Wire

  /** The same transfer by a later process: its clock and default owner may differ, nothing else does. */
  ghost predicate Again(job: Job, next: Job) {
    next == job.(cfg := job.cfg.(proc := next.cfg.proc))
  }

  /** Every file to be transferred is at the source, with the size the list says. */
  ghost predicate Stable(job: Job) {
    forall i :: 0 <= i < |job.list.entries| && Transfers(job.list, Entry(job, i)) ==>
      Entry(job, i).path in job.src && Entry(job, i).size == |job.src[Entry(job, i).path]|
  }

  /** No source file has two different windows that collide with its own blocks. */
  ghost predicate SelfHonest(job: Job) {
    forall i :: 0 <= i < |job.list.entries| && Transfers(job.list, Entry(job, i)) ==>
      CollisionFree(job.cfg.digest, SourceOf(job, Entry(job, i)), DEFAULT_BLOCK_SIZE, SourceOf(job, Entry(job, i)))
  }

  /** What an entry's path is like when a second run has nothing to do for it. */
  ghost predicate UpToDate(job: Job, e: FileEntry, fs: FS) {
    match e.kind
    case Directory => IsDir(fs, At(job.cfg, e)) && Agrees(e, Lookup(fs, At(job.cfg, e)).value.meta, job.cfg.attrs)
    case Symlinked => job.cfg.attrs.links ==> Linked(job.cfg, e, fs)
    case Regular => !Secondary(job.list.groups, e.path) ==> Stored(job.cfg, e, SourceOf(job, e), fs)
  }

  /** The lines a second run prints for the first k entries: one for each hard-link member. */
  function MemberLines(job: Job, k: nat): seq<string>
    requires k <= |job.list.entries|
  {
    if k == 0 then []
    else
      MemberLines(job, k - 1) + if Own(job, k - 1) then [] else Report(job.cfg.ropts, Some(HARD_LINK_CODE), Entry(job, k - 1))
  }

  /** The literal bytes a second run sends for the first k entries: each file's short last block. */
  function Remainders(job: Job, k: nat): nat
    requires k <= |job.list.entries|
  {
    if k == 0 then 0
    else
      Remainders(job, k - 1) +
      if Transfers(job.list, Entry(job, k - 1)) then |SourceOf(job, Entry(job, k - 1))| % DEFAULT_BLOCK_SIZE else 0
  }

  // ---- One entry that is up to date ----

  lemma QuietDir(cfg: Config, e: FileEntry, st: State)
    requires IsDir(st.fs, At(cfg, e)) && Agrees(e, Lookup(st.fs, At(cfg, e)).value.meta, cfg.attrs)
    requires ReceiveDir(cfg, e, st).Ok?
    ensures ReceiveDir(cfg, e, st).value.lines == st.lines
    ensures ReceiveDir(cfg, e, st).value.stats.transferred == st.stats.transferred
    ensures ReceiveDir(cfg, e, st).value.stats.literal == st.stats.literal
  {
    DirSilentIff(e, Lookup(st.fs, At(cfg, e)), cfg.ownerKnown, cfg.attrs);
  }

  lemma QuietSymlink(cfg: Config, e: FileEntry, st: State)
    requires cfg.attrs.links ==> Linked(cfg, e, st.fs)
    requires ReceiveSymlink(cfg, e, st).Ok?
    ensures ReceiveSymlink(cfg, e, st).value.lines == st.lines
    ensures ReceiveSymlink(cfg, e, st).value.stats.transferred == st.stats.transferred
    ensures ReceiveSymlink(cfg, e, st).value.stats.literal == st.stats.literal
  {
    if cfg.attrs.links {
      SymlinkSilentIff(e, Lookup(st.fs, At(cfg, e)), cfg.ownerKnown, cfg.attrs);
    }
  }

  /** The delta of a file against itself rebuilds it and costs its short last block. */
  lemma QuietDelta(job: Job, e: FileEntry, fs: FS)
    requires Valid(fs) && job.cfg.ropts.partialDir.None? && !job.cfg.ropts.AppendMode() && Wire.Inverts(job.cfg.codec)
    requires e.path in job.src && Stored(job.cfg, e, job.src[e.path], fs)
    requires CollisionFree(job.cfg.digest, job.src[e.path], DEFAULT_BLOCK_SIZE, job.src[e.path])
    requires Rebuilt(job, e, fs).Ok?
    ensures Exchanged(job, e, fs).Ok?
    ensures Exchanged(job, e, fs).value.plan.was == Lookup(fs, At(job.cfg, e))
    ensures Exchanged(job, e, fs).value.plan.basis == job.src[e.path] == Exchanged(job, e, fs).value.data
    ensures LiteralBytes(Exchanged(job, e, fs).value.ops) == |job.src[e.path]| % DEFAULT_BLOCK_SIZE
  {
    RebuiltIsFinal(job, e, fs);
    PlanReadsFile(job.cfg, e, fs);
    var plan := Prepare(job.cfg, e, fs).value;
    var ops := ReplyOps(job.cfg, job.src, e, plan.sig, plan.action).value;
    Wire.WireRoundTrip(job.cfg.codec, ops, Render(e.path), job.cfg.copts);
    UnchangedCostsTheRemainder(job.cfg.digest, job.src[e.path], DEFAULT_BLOCK_SIZE);
  }

  lemma QuietTransfer(job: Job, e: FileEntry, pr: Progress)
    requires Valid(pr.st.fs) && Plain(job.cfg) && !job.cfg.ropts.AppendMode() && Wire.Inverts(job.cfg.codec)
    requires Transfers(job.list, e) && SyncEntry(job, e, pr).Ok?
    requires e.path in job.src && e.size == |job.src[e.path]| && Stored(job.cfg, e, job.src[e.path], pr.st.fs)
    requires CollisionFree(job.cfg.digest, job.src[e.path], DEFAULT_BLOCK_SIZE, job.src[e.path])
    ensures SyncEntry(job, e, pr).value.st.lines == pr.st.lines
    ensures SyncEntry(job, e, pr).value.st.stats.transferred == pr.st.stats.transferred
    ensures SyncEntry(job, e, pr).value.st.stats.literal == pr.st.stats.literal + |job.src[e.path]| % DEFAULT_BLOCK_SIZE
  {
    hide SyncEntry, Rebuilt, Exchanged, ItemizeFile, Report, CountRegular, CollisionFree, Stored;
    var x, sent, received := TransferReports(job, e, pr);
    QuietDelta(job, e, pr.st.fs);
    QuietLine(job, e, x, pr.st.fs);
    QuietCount(e, x, pr.st.stats.(bytesSent := pr.st.stats.bytesSent + sent, bytesReceived := pr.st.stats.bytesReceived + received));
    assert pr.st.lines + [] == pr.st.lines;
  }

  lemma QuietLine(job: Job, e: FileEntry, x: Exchange, fs: FS)
    requires x.plan.was == Lookup(fs, At(job.cfg, e)) && x.plan.basis == x.data
    requires Stored(job.cfg, e, x.data, fs) && e.size == |x.data|
    ensures ItemizeFile(e, x.plan.was, SizeOf(x.plan.was), job.cfg.ownerKnown, ContentChanged(x.plan, x.data), job.cfg.attrs) == None
    ensures x.plan.was.Some?
  {
    FileSilentIff(e, x.plan.was, SizeOf(x.plan.was), job.cfg.ownerKnown, false, job.cfg.attrs);
  }

  lemma QuietCount(e: FileEntry, x: Exchange, stats: Stats)
    requires x.plan.was.Some? && x.plan.basis == x.data
    ensures CountRegular(e, x.plan, x.ops, x.data, stats).transferred == stats.transferred
    ensures CountRegular(e, x.plan, x.ops, x.data, stats).literal == stats.literal + LiteralBytes(x.ops)
  {
  }

  lemma QuietEntry(job: Job, i: nat, pr: Progress)
    requires i < |job.list.entries| && Valid(pr.st.fs) && Plain(job.cfg) && !job.cfg.ropts.AppendMode() && Wire.Inverts(job.cfg.codec)
    requires Stable(job) && SelfHonest(job) && SyncEntry(job, Entry(job, i), pr).Ok?
    requires Own(job, i) ==> UpToDate(job, Entry(job, i), pr.st.fs)
    ensures SyncEntry(job, Entry(job, i), pr).value.st.lines ==
      pr.st.lines + if Own(job, i) then [] else Report(job.cfg.ropts, Some(HARD_LINK_CODE), Entry(job, i))
    ensures SyncEntry(job, Entry(job, i), pr).value.st.stats.transferred == pr.st.stats.transferred
    ensures SyncEntry(job, Entry(job, i), pr).value.st.stats.literal == pr.st.stats.literal +
      if Transfers(job.list, Entry(job, i)) then |SourceOf(job, Entry(job, i))| % DEFAULT_BLOCK_SIZE else 0
  {
    var e := Entry(job, i);
    assert pr.st.lines + [] == pr.st.lines;
    hide Report, CollisionFree, Stored, Linked, ReceiveDir, ReceiveSymlink;
    if Transfers(job.list, e) {
      QuietTransfer(job, e, pr);
    } else if e.kind == Directory {
      QuietDir(job.cfg, e, pr.st);
    } else if e.kind == Symlinked {
      QuietSymlink(job.cfg, e, pr.st);
    }
  }

  // ---- The second run ----

  lemma SettledIsUpToDate(job: Job, next: Job, start: FS, fs: FS, i: nat)
    requires Again(job, next) && !job.cfg.ropts.AppendMode() && i < |job.list.entries| && Settled(job, i, start, fs)
    ensures Own(next, i) ==> UpToDate(next, Entry(next, i), fs)
  {
  }

  /** The destination a successful run leaves is a sound place to run again. */
  lemma SecondRunIsSound(job: Job, next: Job, start: FS)
    requires Sound(job, start) && Honest(job, start) && Run(job, start).Ok? && !job.cfg.ropts.AppendMode()
    requires Again(job, next) && SelfHonest(job)
    ensures Sound(next, Final(job, start)) && Honest(next, Final(job, start))
  {
    var done := Final(job, start);
    FinalIsSafe(job, next, start);
    forall i | 0 <= i < |next.list.entries| && Transfers(next.list, Entry(next, i)) ensures NoCollision(next, Entry(next, i), done) {
      hide Run, After, Sound, Honest;
      SourceArrives(job, start, i);
      assert Transfers(job.list, Entry(job, i));
    }
  }

  lemma FinalIsSafe(job: Job, next: Job, start: FS)
    requires Sound(job, start) && Run(job, start).Ok? && Again(job, next)
    ensures Safe(next, Final(job, start))
  {
    var mid, linked := RunPasses(job, start);
    hide Run, After, Sound;
    forall i, j | 0 <= i < j < |next.list.entries| && Own(next, i) && Own(next, j)
      ensures !Shares(Final(job, start), Where(next, i), Where(next, j))
    {
      FinalIsDistinct(job, start, i, j);
    }
  }

  lemma {:induction false} SecondRunIsQuiet(job: Job, next: Job, start: FS, k: nat)
    requires Sound(job, start) && Honest(job, start) && Run(job, start).Ok? && !job.cfg.ropts.AppendMode()
    requires Again(job, next) && Stable(job) && SelfHonest(job)
    requires k <= |job.list.entries| && After(next, Final(job, start), k).Ok?
    ensures After(next, Final(job, start), k).value.st.lines == MemberLines(job, k)
    ensures After(next, Final(job, start), k).value.st.stats.transferred == 0
    ensures After(next, Final(job, start), k).value.st.stats.literal == Remainders(job, k)
  {
    hide Run, SyncEntry, WellFormed, Safe, Final, Report, UpToDate, NoCollision, CollisionFree;
    if k > 0 {
      SecondRunIsQuiet(job, next, start, k - 1);
      var done := Final(job, start);
      SecondRunIsSound(job, next, start);
      NothingAheadTouched(next, done, k - 1);
      RunSettles(job, start, k - 1);
      SettledIsUpToDate(job, next, start, done, k - 1);
      var pr := After(next, done, k - 1).value;
      SameHypotheses(job, next);
      StillUpToDate(next, k - 1, done, pr.st.fs);
      QuietEntry(next, k - 1, pr);
    }
  }

  lemma SameHypotheses(job: Job, next: Job)
    requires Again(job, next) && Stable(job) && SelfHonest(job)
    ensures Stable(next) && SelfHonest(next)
  {
    assert forall i :: 0 <= i < |next.list.entries| && Transfers(next.list, Entry(next, i)) ==> Transfers(job.list, Entry(job, i));
  }

  lemma StillUpToDate(job: Job, i: nat, start: FS, fs: FS)
    requires i < |job.list.entries| && Ahead(job, start, fs, i)
    requires Own(job, i) ==> UpToDate(job, Entry(job, i), start)
    ensures Own(job, i) ==> UpToDate(job, Entry(job, i), fs)
    ensures Valid(fs)
  {
    if Own(job, i) {
      assert Untouched(start, fs, Where(job, i));
    }
  }

  /**
   * After a successful sync, a second successful run with the same options
   * rewrites no file, reports nothing but hard-link members, and sends of each
   * file only the short block at its end.
   */
  lemma SecondRunTransfersNothing(job: Job, next: Job, start: FS)
    requires Sound(job, start) && Honest(job, start) && Run(job, start).Ok? && !job.cfg.ropts.AppendMode()
    requires Again(job, next) && Stable(job) && SelfHonest(job)
    requires Run(next, Final(job, start)).Ok?
    ensures var second := Run(next, Final(job, start)).value;
      && second.st.stats.transferred == 0
      && second.st.lines == MemberLines(job, |job.list.entries|)
      && second.st.stats.literal == Remainders(job, |job.list.entries|)
  {
    SecondRunIsQuiet(job, next, start, |job.list.entries|);
  }

  /** Nor does the second run change any transferred file's bytes. */
  lemma SecondRunKeepsContents(job: Job, next: Job, start: FS, i: nat)
    requires Sound(job, start) && Honest(job, start) && Run(job, start).Ok? && !job.cfg.ropts.AppendMode()
    requires Again(job, next) && SelfHonest(job) && Run(next, Final(job, start)).Ok?
    requires i < |job.list.entries| && Transfers(job.list, Entry(job, i))
    ensures ContentAt(Final(next, Final(job, start)), Where(job, i)) == ContentAt(Final(job, start), Where(job, i))
  {
    hide Run, Sound, Honest;
    SecondRunIsSound(job, next, start);
    SourceArrives(job, start, i);
    SourceArrives(next, Final(job, start), i);
  }
}
