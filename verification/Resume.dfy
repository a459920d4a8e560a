/** An interrupted write, from the failure to the run that takes up where it stopped. */
module Resume {
  import opened Prelude
  import opened FileSystem
  import opened Entries
  import opened Delta
  import opened Receiver
  import opened SyncRun
  import opened TempWrite
  import opened LocalSync
  import opened Lockstep
  import opened Effects
  import opened Runs
  import opened Contents
  import opened PartialDirs
  import opened Atomic
  import opened Keeping
  import Blocks
  import Idempotence
  import Members
  import Names
  import Wire

  // ---- The failure ----

  /** How many bytes have reached the temporary file when the write breaks. */
  function BytesIn(m: Machine, extra: nat): nat
    requires m.r.Placing? && m.r.phase.Filling?
  {
    if m.r.phase.n + extra <= |m.r.data| then m.r.phase.n + extra else |m.r.data|
  }

  /** More bytes in the temporary file change nothing else. */
  lemma FillingMore(setup: Setup, m: Machine, n: nat)
    requires Valid(setup.start) && m.r.Placing? && OnCourse(setup, m.r) && m.r.phase.Filling? && n <= |m.r.data|
    ensures var filled := Fill(m.r.fs, m.r.phase.tmp, m.r.data[..n]);
      && Valid(filled) && Valid(m.r.fs) && IsFile(filled, m.r.phase.tmp) && IsFile(m.r.fs, m.r.phase.tmp) && m.r.phase.tmp != []
      && filled.names == m.r.fs.names && ContentAt(filled, m.r.phase.tmp) == Some(m.r.data[..n])
      && (forall q :: q != m.r.phase.tmp ==> ShapeAt(filled, q) == ShapeAt(m.r.fs, q))
  {
    FillLength(setup, m);
    var made := FillingBeside(setup, m, m.r.phase.n);
    var base := FillingBeside(setup, m, n);
    hide OnCourse, Fill;
    FilledFacts(m.r.fs, m.r.phase.tmp, m.r.data[..n]);
  }

  lemma SameKeepable(cfg: Config, e: FileEntry, fs: FS, filled: FS, tmp: Path)
    requires filled.names == fs.names && IsFile(fs, tmp) && IsFile(filled, tmp)
    requires forall q :: q != tmp ==> ShapeAt(filled, q) == ShapeAt(fs, q)
    ensures Keepable(cfg, e, filled) <==> Keepable(cfg, e, fs)
  {
    forall q ensures IsDir(filled, q) == IsDir(fs, q) {
      if q != tmp {
        Keeping.SameKind(fs, filled, q);
      }
    }
    hide KeepAt;
  }

  /** The bytes written so far at their place if that can be made, else nothing of them; and nothing else changed. */
  ghost predicate Broken(cfg: Config, e: FileEntry, fs: FS, left: FS, tmp: Path, bytes: Bytes) {
    if Keepable(cfg, e, fs) then PartialKept(fs, left, tmp, KeepAt(cfg, e), bytes)
    else left.names == fs.names - {tmp} && forall q :: q != tmp ==> ShapeAt(left, q) == ShapeAt(fs, q)
  }

  lemma AbandonedIsBroken(cfg: Config, e: FileEntry, fs: FS, filled: FS, tmp: Path, bytes: Bytes)
    requires Valid(filled) && IsFile(filled, tmp) && IsFile(fs, tmp) && tmp != [] && e.path != [] && filled.names == fs.names
    requires ContentAt(filled, tmp) == Some(bytes) && (forall q :: q != tmp ==> ShapeAt(filled, q) == ShapeAt(fs, q))
    requires IsDir(fs, Parent(At(cfg, e))) && Parent(At(cfg, e)) != tmp
    ensures Broken(cfg, e, fs, AbandonOrKeep(cfg, e, filled, tmp, true), tmp, bytes) && Valid(AbandonOrKeep(cfg, e, filled, tmp, true))
  {
    SameKeepable(cfg, e, fs, filled, tmp);
    Keeping.SameKind(fs, filled, Parent(At(cfg, e)));
    var left := AbandonOrKeep(cfg, e, filled, tmp, true);
    hide AbandonOrKeep, Keepable, Valid, KeepAt;
    AbandonedExactly(cfg, e, filled, tmp);
    if Keepable(cfg, e, fs) {
      ContentByShape(filled, tmp, left, KeepAt(cfg, e));
      forall q | q != KeepAt(cfg, e) && q != tmp ensures AloneBut(fs, left, KeepAt(cfg, e), q) {
        assert AloneBut(filled, left, KeepAt(cfg, e), q) && ShapeAt(filled, q) == ShapeAt(fs, q);
      }
    }
  }

  lemma FaultDisk(setup: Setup, m: Machine, extra: nat)
    requires m.r.Placing? && m.r.phase.Filling? && m.r.k < N(setup)
    ensures ReceiverFault(setup, m, extra, true).Some? && Members.Failed(ReceiverFault(setup, m, extra, true).value.r)
    ensures Disk(setup, ReceiverFault(setup, m, extra, true).value)
         == AbandonOrKeep(setup.job.cfg, Entry(setup.job, m.r.k), Fill(m.r.fs, m.r.phase.tmp, m.r.data[..BytesIn(m, extra)]), m.r.phase.tmp, true)
  {
    hide AbandonOrKeep, Fill;
  }

  lemma EntryIsNamed(setup: Setup, k: nat)
    requires WellFormed(setup.job.list) && k < N(setup)
    ensures Entry(setup.job, k).path != []
  {
  }

  /** What the failed step leaves. */
  lemma BreakLeaves(setup: Setup, m: Machine, extra: nat)
    requires Valid(setup.start) && WellFormed(setup.job.list) && m.r.Placing? && OnCourse(setup, m.r) && m.r.phase.Filling? && m.r.k < N(setup)
    ensures ReceiverFault(setup, m, extra, true).Some? && Valid(Disk(setup, ReceiverFault(setup, m, extra, true).value))
    ensures Broken(setup.job.cfg, Entry(setup.job, m.r.k), m.r.fs, Disk(setup, ReceiverFault(setup, m, extra, true).value), m.r.phase.tmp, m.r.data[..BytesIn(m, extra)])
  {
    hide WellFormed, AbandonOrKeep, Fill, Broken, Valid, OnCourse, KeepAt, ReceiverFault, Disk;
    var n := BytesIn(m, extra);
    EntryIsNamed(setup, m.r.k);
    FillingMore(setup, m, n);
    ParentOfPlace(setup, m);
    FaultDisk(setup, m, extra);
    AbandonedIsBroken(setup.job.cfg, Entry(setup.job, m.r.k), m.r.fs, Fill(m.r.fs, m.r.phase.tmp, m.r.data[..n]), m.r.phase.tmp, m.r.data[..n]);
  }

  lemma ParentOfPlace(setup: Setup, m: Machine)
    requires Valid(setup.start) && m.r.Placing? && OnCourse(setup, m.r) && m.r.phase.Filling? && m.r.k < N(setup)
    ensures IsDir(m.r.fs, Parent(At(setup.job.cfg, Entry(setup.job, m.r.k)))) && Parent(At(setup.job.cfg, Entry(setup.job, m.r.k))) != m.r.phase.tmp
  {
    var made := PlacingBase(setup, m);
    var p := At(setup.job.cfg, Entry(setup.job, m.r.k));
    hide Understood, MkdirAll, Valid, MustWrite;
    FilledIs(setup.job.cfg.proc, made, p, m.r.phase.tmp, m.r.data[..m.r.phase.n]);
    Keeping.SameKind(made, m.r.fs, Parent(p));
  }

  /**
   * A write that breaks with some of the bytes written, in any interleaving:
   * if --partial asks for it and its place can be made, that place then holds
   * exactly those bytes of the entry's new content; otherwise nothing is left
   * of them. Nothing else changes.
   */
  lemma BrokenWriteIsKept(setup: Setup, schedule: seq<Choice>, extra: nat)
    requires Ready(setup) && Exec(setup, schedule).r.Placing? && Exec(setup, schedule).r.phase.Filling?
    ensures var m, next := Exec(setup, schedule), Exec(setup, schedule + [BreakReceiver(extra, true)]);
      && m.r.k < N(setup) && Members.Failed(next.r) && Valid(Disk(setup, next)) && BytesIn(m, extra) <= |Full(setup, m.r.k)|
      && Broken(setup.job.cfg, Entry(setup.job, m.r.k), Disk(setup, m), Disk(setup, next), m.r.phase.tmp, Full(setup, m.r.k)[..BytesIn(m, extra)])
  {
    hide Ready, Inv, Exec, Broken, Full, ReceiverFault, Valid, WellFormed, Apart;
    var m := Exec(setup, schedule);
    ReadyIsValid(setup);
    EveryInterleaving(setup, schedule);
    OnItsWay(setup, m);
    DataIsFull(setup, m);
    BreakLeaves(setup, m, extra);
    FaultDisk(setup, m, extra);
    BreakingOn(setup, schedule, extra);
  }

  lemma OnItsWay(setup: Setup, m: Machine)
    requires Inv(setup, m)
    ensures OnCourse(setup, m.r) && (m.r.Placing? ==> m.r.k < N(setup) && Transfers(setup.job.list, Entry(setup.job, m.r.k)))
  {
    hide Valid, Recorded, InStep, PhaseOk, After, Prepare, Reply, ReadDelta, NewData, Transfers;
  }

  lemma BreakingOn(setup: Setup, schedule: seq<Choice>, extra: nat)
    requires ReceiverFault(setup, Exec(setup, schedule), extra, true).Some?
    ensures Exec(setup, schedule + [BreakReceiver(extra, true)]) == ReceiverFault(setup, Exec(setup, schedule), extra, true).value
  {
    var longer := schedule + [BreakReceiver(extra, true)];
    assert longer[..|longer| - 1] == schedule && longer[|longer| - 1] == BreakReceiver(extra, true);
    hide ReceiverFault, SenderStep, ReceiverStep;
  }

  // ---- The run that takes it up ----

  /** With a kept prefix as the basis an exchange sends no more than the rest and one short block. */
  lemma PrefixIsNotSentAgain(job: Job, e: FileEntry, fs: FS, plan: Plan, msg: Message, kept: Bytes)
    requires Wire.Inverts(job.cfg.codec) && NoCollisionOn(job, e, fs) && job.cfg.ropts.partialDir.Some? && !job.cfg.ropts.AppendMode()
    requires ContentAt(fs, Spot(job.cfg, e)) == Some(kept) && kept <= SourceOf(job, e)
    requires Prepare(job.cfg, e, fs) == Ok(plan) && Reply(job.cfg, job.src, e, SignatureFor(e, plan)) == Ok(msg)
    ensures plan.usedPartial && plan.basis == kept
    ensures ReadDelta(job.cfg, e, msg).Ok? && NewData(plan, ReadDelta(job.cfg, e, msg).value) == Ok(SourceOf(job, e))
    ensures LiteralBytes(ReadDelta(job.cfg, e, msg).value) <= |kept| % Blocks.DEFAULT_BLOCK_SIZE + |SourceOf(job, e)| - |kept|
  {
    PlanIs(job.cfg, e, fs);
    AnswerLands(job, e, fs, plan, msg);
    var source := SourceOf(job, e);
    assert kept + source[|kept|..] == source;
    AppendCostsOnlyTheTail(job.cfg.digest, kept, Blocks.DEFAULT_BLOCK_SIZE, source[|kept|..]);
    var ops := ReplyOps(job.cfg, job.src, e, plan.sig, plan.action).value;
    Wire.WireRoundTrip(job.cfg.codec, ops, Render(e.path), job.cfg.copts);
    hide Prepare, Wire.Encode, Wire.Decode, DeltaOf, Delta.Apply, CollisionFree, PartialPath;
  }

  lemma EntryTakesUp(job: Job, e: FileEntry, pr: Progress, kept: Bytes)
    requires Wire.Inverts(job.cfg.codec) && NoCollisionOn(job, e, pr.st.fs) && job.cfg.ropts.partialDir.Some? && !job.cfg.ropts.AppendMode()
    requires ContentAt(pr.st.fs, Spot(job.cfg, e)) == Some(kept) && kept <= SourceOf(job, e)
    requires Transfers(job.list, e) && SyncEntry(job, e, pr).Ok?
    ensures SyncEntry(job, e, pr).value.st.stats.literal <=
      pr.st.stats.literal + |kept| % Blocks.DEFAULT_BLOCK_SIZE + |SourceOf(job, e)| - |kept|
  {
    hide Prepare, Reply, ReadDelta, NewData, Commit, NoCollisionOn, LiteralBytes, MatchedBytes, PartialPath;
    var plan := Prepare(job.cfg, e, pr.st.fs).value;
    var msg := Reply(job.cfg, job.src, e, SignatureFor(e, plan)).value;
    PrefixIsNotSentAgain(job, e, pr.st.fs, plan, msg, kept);
  }

  /** A kept prefix lying ready for entry k. */
  lemma RunTakesUp(job: Job, start: FS, k: nat, kept: Bytes)
    requires WellFormed(job.list) && Apart(job) && Valid(start) && Wire.Inverts(job.cfg.codec)
    requires k < |job.list.entries| && Transfers(job.list, Entry(job, k)) && After(job, start, k + 1).Ok? && NoCollisionOn(job, Entry(job, k), start)
    requires job.cfg.ropts.partialDir.Some? && !job.cfg.ropts.AppendMode()
    requires ContentAt(start, Spot(job.cfg, Entry(job, k))) == Some(kept) && kept <= SourceOf(job, Entry(job, k))
    ensures After(job, start, k).Ok?
    ensures After(job, start, k + 1).value.st.stats.literal <=
      After(job, start, k).value.st.stats.literal + |kept| % Blocks.DEFAULT_BLOCK_SIZE + |SourceOf(job, Entry(job, k))| - |kept|
  {
    hide WellFormed, Apart, Valid, Transfers, NoCollisionOn, PartialPath, SyncEntry;
    AheadAsBefore(job, start, k, k);
    SameOutlook(job, Entry(job, k), start, After(job, start, k).value.st.fs);
    EntryTakesUp(job, Entry(job, k), After(job, start, k).value, kept);
  }

  /**
   * Resuming: what a broken write kept under --partial-dir is the basis of the
   * same entry in a later run with the same options, which sends of that file
   * no more than the bytes that were missing and one short block.
   */
  lemma KeptBytesAreNotSentAgain(setup: Setup, schedule: seq<Choice>, extra: nat, next: Job, k: nat, left: FS)
    requires Ready(setup) && Exec(setup, schedule).r.Placing? && Exec(setup, schedule).r.phase.Filling? && Exec(setup, schedule).r.k == k < N(setup)
    requires Idempotence.Again(setup.job, next) && next.cfg.ropts.partialDir.Some? && !next.cfg.ropts.AppendMode()
    requires Keepable(setup.job.cfg, Entry(setup.job, k), Disk(setup, Exec(setup, schedule)))
    requires left == Disk(setup, Exec(setup, schedule + [BreakReceiver(extra, true)]))
    requires After(next, left, k + 1).Ok? && NoCollisionOn(next, Entry(next, k), left)
    ensures After(next, left, k).Ok?
    ensures var n := BytesIn(Exec(setup, schedule), extra);
      After(next, left, k + 1).value.st.stats.literal - After(next, left, k).value.st.stats.literal
      <= n % Blocks.DEFAULT_BLOCK_SIZE + |SourceOf(next, Entry(next, k))| - n
  {
    hide Exec, Ready, Disk, Keepable, PartialPath, SyncEntry, Transfers, NoCollisionOn, Full, Apart, Idempotence.Again, PartialKept, Valid, WellFormed, Inv, KeepAt;
    var m := Exec(setup, schedule);
    BrokenWriteIsKept(setup, schedule, extra);
    InHandTransfers(setup, schedule);
    var kept := Full(setup, k)[..BytesIn(m, extra)];
    SameAgain(setup, next, k);
    BrokenKeeps(setup.job.cfg, Entry(setup.job, k), Disk(setup, m), left, m.r.phase.tmp, kept);
    hide Broken;
    assert kept <= Full(setup, k) && |kept| == BytesIn(m, extra);
    RunTakesUp(next, left, k, kept);
  }

  lemma InHandTransfers(setup: Setup, schedule: seq<Choice>)
    requires Ready(setup) && Exec(setup, schedule).r.Placing?
    ensures Exec(setup, schedule).r.k < N(setup) && Transfers(setup.job.list, Entry(setup.job, Exec(setup, schedule).r.k))
  {
    hide Ready, Valid, Transfers, Exec, Inv, WellFormed, Apart;
    ReadyIsValid(setup);
    EveryInterleaving(setup, schedule);
    OnItsWay(setup, Exec(setup, schedule));
  }

  lemma BrokenKeeps(cfg: Config, e: FileEntry, fs: FS, left: FS, tmp: Path, kept: Bytes)
    requires cfg.ropts.partialDir.Some? && Keepable(cfg, e, fs) && Broken(cfg, e, fs, left, tmp, kept)
    ensures ContentAt(left, Spot(cfg, e)) == Some(kept)
  {
    hide PartialPath;
  }

  lemma SameAgain(setup: Setup, next: Job, k: nat)
    requires Ready(setup) && Idempotence.Again(setup.job, next) && k < N(setup) && !next.cfg.ropts.AppendMode()
    ensures next.list == setup.job.list && WellFormed(next.list) && Apart(next) && Wire.Inverts(next.cfg.codec)
    ensures Full(setup, k) == SourceOf(next, Entry(next, k))
    ensures Transfers(next.list, Entry(next, k)) <==> Transfers(setup.job.list, Entry(setup.job, k))
    ensures next.cfg.ropts == setup.job.cfg.ropts && next.cfg.dest == setup.job.cfg.dest && Entry(next, k) == Entry(setup.job, k)
    ensures next.cfg.ropts.partialDir.Some? ==> Spot(next.cfg, Entry(next, k)) == Spot(setup.job.cfg, Entry(setup.job, k))
  {
    hide WellFormed, Valid, NoCollisionOn, PartialPath;
    if next.cfg.ropts.partialDir.Some? {
      forall i, j | 0 <= i < |next.list.entries| && Transfers(next.list, Entry(next, i)) && 0 <= j < |next.list.entries|
        ensures Spot(next.cfg, Entry(next, i)) != Where(next, j)
      {
        assert Spot(setup.job.cfg, Entry(setup.job, i)) != Where(setup.job, j);
      }
    }
  }
}
