/**
 * What an aborted run leaves is a place to run again: at every step of every
 * interleaving the destination is a tree, and as unaliased as it was.
 */
module Recovery {
  import opened Prelude
  import opened FileSystem
  import opened Entries
  import opened Delta
  import opened Receiver
  import opened SyncRun
  import opened TempWrite
  import opened LocalSync
  import opened Lockstep
  import opened Effects
  import opened Runs
  import opened FinalPasses
  import opened EndToEnd
  import opened Contents
  import opened Atomic
  import opened Keeping
  import Attributes
  import Idempotence

  /** Every name but p keeps its inode or is a directory, and p does too or has a new inode. */
  ghost predicate Renews(fs: FS, after: FS, p: Path) {
    && Valid(after)
    && forall q :: q in after.names ==>
         || (q in fs.names && after.names[q] == fs.names[q])
         || IsDir(after, q)
         || (q == p && fs.next <= after.names[q])
  }

  lemma WorkRenews(fs: FS, after: FS, p: Path)
    requires WorksOn(fs, after, p) && Valid(after)
    ensures Renews(fs, after, p)
  {
  }

  /** Names given anew alias nothing. */
  lemma RenewedIsSafe(job: Job, fs: FS, after: FS, p: Path)
    requires WellFormed(job.list) && Safe(job, fs) && Renews(fs, after, p)
    ensures Safe(job, after)
  {
    forall i, j | 0 <= i < j < |job.list.entries| && Own(job, i) && Own(job, j) ensures !Shares(after, Where(job, i), Where(job, j)) {
      hide WellFormed;
      NotTheSame(job, i, j);
      RenewedApart(fs, after, p, Where(job, i), Where(job, j));
    }
  }

  lemma RenewedApart(fs: FS, after: FS, p: Path, a: Path, b: Path)
    requires Valid(fs) && Renews(fs, after, p) && a != b && !Shares(fs, a, b)
    ensures !Shares(after, a, b)
  {
    if Shares(after, a, b) {
      assert a in after.names && b in after.names && after.names[a] == after.names[b];
      if IsDir(after, a) || IsDir(after, b) {
        DirsHaveOneName(after, a, b);
      } else {
        NamesAreOld(fs);
      }
    }
  }

  lemma DirsHaveOneName(fs: FS, a: Path, b: Path)
    requires Valid(fs) && Shares(fs, a, b) && (IsDir(fs, a) || IsDir(fs, b))
    ensures a == b
  {
  }

  lemma MkdirIsSafe(job: Job, fs: FS, d: Path)
    requires WellFormed(job.list) && Safe(job, fs) && MkdirAll(job.cfg.proc, fs, d).Ok?
    ensures Safe(job, MkdirAll(job.cfg.proc, fs, d).value)
  {
    hide Distinct, MkdirAll, WorksOn, Renews;
    MkdirAllWorks(job.cfg.proc, fs, d, d);
    WorkRenews(fs, MkdirAll(job.cfg.proc, fs, d).value, d);
    hide Valid;
    RenewedIsSafe(job, fs, MkdirAll(job.cfg.proc, fs, d).value, d);
  }

  // ---- While a file is put in place ----

  lemma FilledRenews(proc: Process, made: FS, p: Path, tmp: Path, bytes: Bytes)
    requires Valid(made) && OpenTemp(proc, made, p, tmp).Ok?
    ensures Renews(made, Fill(OpenTemp(proc, made, p, tmp).value, tmp, bytes), tmp)
    ensures var filled := Fill(OpenTemp(proc, made, p, tmp).value, tmp, bytes);
      filled.names == made.names[tmp := made.next] && IsFile(filled, tmp)
  {
    hide Create, Valid, WorksOn, Fill;
    var inode := File(Fresh(proc, made, FILE_MODE), []);
    var begun := Create(proc, made, tmp, inode);
    assert OpenTemp(proc, made, p, tmp).value == begun;
    CreateFacts(proc, made, tmp, inode);
    assert IsFile(begun, tmp);
    FilledFacts(begun, tmp, bytes);
    FilledValid(begun, tmp, bytes);
  }

  /** What abandonOrKeep leaves without a partial directory: the temporary file gone, or kept at the entry's path. */
  lemma AbandonedRenews(cfg: Config, e: FileEntry, made: FS, fs: FS, tmp: Path, renames: bool)
    requires cfg.ropts.partialDir.None? && Valid(made) && Valid(fs) && fs.names == made.names[tmp := made.next]
    requires tmp !in made.names && tmp != [] && IsFile(fs, tmp) && Parent(tmp) == Parent(At(cfg, e))
    requires forall q :: q in made.names && IsDir(made, q) ==> IsDir(fs, q)
    ensures Renews(made, AbandonOrKeep(cfg, e, fs, tmp, renames), At(cfg, e))
  {
    assert Remove(cfg.proc, fs, tmp).Ok?;
    RemoveWorks(cfg.proc, fs, tmp);
    hide Remove;
    if cfg.ropts.KeepPartial() && RenameOnto(cfg.proc, fs, tmp, At(cfg, e)).Ok? {
      RenameIs(cfg.proc, fs, tmp, At(cfg, e));
      MovedKinds(fs, tmp, At(cfg, e));
    }
    hide RenameOnto;
  }

  // ---- Every step ----

  lemma EntriesAreSafe(job: Job, start: FS, k: nat)
    requires Sound(job, start) && k <= |job.list.entries| && After(job, start, k).Ok?
    ensures Safe(job, After(job, start, k).value.st.fs)
  {
    hide WellFormed, Valid, Distinct, SyncEntry, Safe;
    NothingAheadTouched(job, start, k);
  }

  lemma MadeIsSafe(setup: Setup, m: Machine) returns (made: FS)
    requires Sound(setup.job, setup.start) && m.r.Placing? && OnCourse(setup, m.r) && !m.r.phase.Making?
    ensures m.r.k < N(setup) && MkdirAll(setup.job.cfg.proc, m.r.st.fs, Parent(At(setup.job.cfg, Entry(setup.job, m.r.k)))) == Ok(made)
    ensures Safe(setup.job, made) && Valid(made)
  {
    hide WellFormed, Distinct, After, MkdirAll, PhaseOk;
    assert Valid(setup.start);
    made := PlacingBase(setup, m);
    PlacingIsReached(setup, m);
    EntriesAreSafe(setup.job, setup.start, m.r.k);
    hide Safe, OnCourse;
    MkdirIsSafe(setup.job, m.r.st.fs, Parent(At(setup.job.cfg, Entry(setup.job, m.r.k))));
  }

  lemma PlacingIsSafe(setup: Setup, m: Machine)
    requires Sound(setup.job, setup.start) && m.r.Placing? && OnCourse(setup, m.r)
    ensures Safe(setup.job, m.r.fs)
  {
    PlacingIsReached(setup, m);
    hide WellFormed, Valid, Distinct, After, MkdirAll, Understood, OpenTemp, Fill, Install, MustWrite, WorksOn, Renews;
    if m.r.phase.Making? {
      EntriesAreSafe(setup.job, setup.start, m.r.k);
    } else {
      var made := MadeIsSafe(setup, m);
      var proc, p := setup.job.cfg.proc, Where(setup.job, m.r.k);
      hide Safe;
      match m.r.phase
      case Making =>
      case Opening =>
      case Filling(tmp, n) =>
        FilledRenews(proc, made, p, tmp, m.r.data[..n]);
        RenewedIsSafe(setup.job, made, m.r.fs, tmp);
      case Written =>
        WrittenIs(setup, m, made);
        if MustWrite(m.r.plan, m.r.data) {
          InstallWorks(proc, made, p, m.r.data);
          WorkRenews(made, m.r.fs, p);
          RenewedIsSafe(setup.job, made, m.r.fs, p);
        }
    }
  }

  /** The link pass gives names to members only, and Own paths are none. */
  lemma LinkedIsSafe(job: Job, from: FS, fs: FS)
    requires WellFormed(job.list) && Safe(job, from) && Keeps(job, from, fs)
    ensures Safe(job, fs)
  {
    hide WellFormed;
    KeepsIsValid(job, from, fs);
    forall i, j | 0 <= i < j < |job.list.entries| && Own(job, i) && Own(job, j) ensures !Shares(fs, Where(job, i), Where(job, j)) {
      OwnIsNoMember(job, i);
      OwnIsNoMember(job, j);
      NotTheSame(job, i, j);
      KeptApart(job, from, fs, Where(job, i), Where(job, j));
    }
  }

  lemma KeptApart(job: Job, from: FS, fs: FS, a: Path, b: Path)
    requires Keeps(job, from, fs) && !Member(job, a) && !Member(job, b) && a != b && !Shares(from, a, b)
    ensures !Shares(fs, a, b)
  {
    hide Member, AboveMember;
    if Shares(fs, a, b) && (a !in from.names || b !in from.names) {
      DirsHaveOneName(fs, a, b);
    }
  }

  lemma LinkingIsSafe(setup: Setup, m: Machine)
    requires Sound(setup.job, setup.start) && m.r.Linking? && OnCourse(setup, m.r)
    ensures Safe(setup.job, m.r.fs)
  {
    hide WellFormed, Distinct, Valid, After, LinkingOk, Keeps;
    SoundIsValid(setup.job, setup.start);
    LinkingKeeps(setup, m);
    EntriesAreSafe(setup.job, setup.start, N(setup));
    hide Safe;
    LinkedIsSafe(setup.job, m.r.st.fs, m.r.fs);
  }

  lemma SoundIsValid(job: Job, fs: FS)
    requires Sound(job, fs)
    ensures Valid(fs) && WellFormed(job.list) && job.cfg.ropts.partialDir.None?
  {
  }

  lemma OnCourseIsSafe(setup: Setup, m: Machine)
    requires Sound(setup.job, setup.start) && OnCourse(setup, m.r) && !m.r.Stamping? && !m.r.ReceiverReturned?
    ensures Safe(setup.job, Disk(setup, m))
  {
    hide WellFormed, Distinct, Valid, Safe, After, PhaseOk, LinkingOk, Understood, Prepare, Transfers;
    match m.r
    case AwaitingList =>
    case AtEntry(k, _) => EntriesAreSafe(setup.job, setup.start, k);
    case Asking(k, _, _) => EntriesAreSafe(setup.job, setup.start, k);
    case AskBlocked(k, _, _) => EntriesAreSafe(setup.job, setup.start, k);
    case AwaitingDelta(k, _, _) => EntriesAreSafe(setup.job, setup.start, k);
    case Placing(_, _, _, _, _, _, _) => PlacingIsSafe(setup, m);
    case Linking(_, _, _, _, _) => LinkingIsSafe(setup, m);
  }

  /** The write in hand fails with n bytes in the temporary file. */
  lemma AbortIsSafe(setup: Setup, m: Machine, n: nat, renames: bool)
    requires Sound(setup.job, setup.start) && OnCourse(setup, m.r) && m.r.Placing? && m.r.phase.Filling? && m.r.k < N(setup) && n <= |m.r.data|
    ensures Safe(setup.job, AbandonOrKeep(setup.job.cfg, Entry(setup.job, m.r.k), Fill(m.r.fs, m.r.phase.tmp, m.r.data[..n]), m.r.phase.tmp, renames))
  {
    hide WellFormed, Valid, Distinct, MkdirAll, Understood, OpenTemp, Fill, AbandonOrKeep, MustWrite, Safe, Renews;
    SoundIsValid(setup.job, setup.start);
    var made := MadeIsSafe(setup, m);
    var cfg, e, tmp, bytes := setup.job.cfg, Entry(setup.job, m.r.k), m.r.phase.tmp, m.r.data[..n];
    var begun := OpenTemp(cfg.proc, made, At(cfg, e), tmp).value;
    FillAgain(begun, tmp, m.r.data[..m.r.phase.n], bytes);
    hide Sound, OnCourse;
    BrokenWriteRenews(cfg, e, made, tmp, bytes, renames);
    RenewedIsSafe(setup.job, made, AbandonOrKeep(cfg, e, Fill(begun, tmp, bytes), tmp, renames), At(cfg, e));
  }

  lemma BrokenWriteRenews(cfg: Config, e: FileEntry, made: FS, tmp: Path, bytes: Bytes, renames: bool)
    requires cfg.ropts.partialDir.None? && Valid(made) && OpenTemp(cfg.proc, made, At(cfg, e), tmp).Ok?
    ensures Renews(made, AbandonOrKeep(cfg, e, Fill(OpenTemp(cfg.proc, made, At(cfg, e), tmp).value, tmp, bytes), tmp, renames), At(cfg, e))
  {
    var filled := Fill(OpenTemp(cfg.proc, made, At(cfg, e), tmp).value, tmp, bytes);
    FilledRenews(cfg.proc, made, At(cfg, e), tmp, bytes);
    DirsStayDirs(cfg.proc, made, At(cfg, e), tmp, bytes);
    assert Valid(filled);
    hide Renews, Valid, Fill, Create, AbandonOrKeep;
    AbandonedRenews(cfg, e, made, filled, tmp, renames);
  }

  lemma DirsStayDirs(proc: Process, made: FS, p: Path, tmp: Path, bytes: Bytes)
    requires Valid(made) && OpenTemp(proc, made, p, tmp).Ok?
    ensures forall q :: IsDir(made, q) ==> IsDir(Fill(OpenTemp(proc, made, p, tmp).value, tmp, bytes), q)
  {
    hide Create, Valid, Fill;
    var inode := File(Fresh(proc, made, FILE_MODE), []);
    var begun := Create(proc, made, tmp, inode);
    assert OpenTemp(proc, made, p, tmp).value == begun;
    CreateFacts(proc, made, tmp, inode);
    FilledFacts(begun, tmp, bytes);
    forall q | IsDir(made, q) ensures IsDir(Fill(begun, tmp, bytes), q) {
      assert q != tmp && ShapeAt(begun, q) == ShapeAt(made, q);
    }
  }

  lemma PlaceFailsSafely(setup: Setup, m: Machine)
    requires Sound(setup.job, setup.start) && OnCourse(setup, m.r) && m.r.Placing? && m.r.k < N(setup) && PlaceStep(setup, m).ReceiverReturned?
    ensures Safe(setup.job, PlaceStep(setup, m).st.fs)
  {
    hide WellFormed, Distinct, Valid, Safe, PlaceStep, AbandonOrKeep, DropPartial;
    SoundIsValid(setup.job, setup.start);
    if m.r.phase.Filling? {
      FillLength(setup, m);
      FillingFails(setup, m);
      var made := FillingBeside(setup, m, m.r.phase.n);
      AbortIsSafe(setup, m, m.r.phase.n, true);
    } else {
      PlainFails(setup, m);
      PlacingIsSafe(setup, m);
      NoDirectoryNoDrop(setup.job.cfg, Entry(setup.job, m.r.k), m.r.plan, m.r.fs);
    }
  }

  /** Attributes name nothing. */
  lemma SameNamesSafe(job: Job, fs: FS, after: FS)
    requires Safe(job, fs) && Valid(after) && after.names == fs.names
    ensures Safe(job, after)
  {
    hide Valid;
  }

  lemma StampIsSafe(setup: Setup, m: Machine)
    requires m.r.Stamping? && m.r.k <= N(setup) && Safe(setup.job, m.r.fs)
    ensures var next := StampStep(setup, m);
      && (next.Stamping? || next.ReceiverReturned?)
      && Safe(setup.job, if next.Stamping? then next.fs else next.st.fs)
  {
    hide Distinct, Valid, Attributes.WithOwnership, Attributes.WithTimes, Attributes.WithPerms;
    if m.r.k > 0 && Entry(setup.job, m.r.k - 1).kind == Directory {
      var e := Entry(setup.job, m.r.k - 1);
      if Attributes.ApplyPlain(m.r.fs, e, At(setup.job.cfg, e), setup.job.cfg.attrs).Ok? {
        PlainValid(m.r.fs, e, At(setup.job.cfg, e), setup.job.cfg.attrs);
        SameNamesSafe(setup.job, m.r.fs, Attributes.ApplyPlain(m.r.fs, e, At(setup.job.cfg, e), setup.job.cfg.attrs).value);
      }
    }
    hide Safe;
  }

  lemma ReceiverStepsSafely(setup: Setup, m: Machine)
    requires Sound(setup.job, setup.start) && Inv(setup, m) && ReceiverStep(setup, m).Some? && Safe(setup.job, Disk(setup, m))
    ensures Safe(setup.job, Disk(setup, ReceiverStep(setup, m).value))
  {
    hide Sound, OnCourse, Valid, Safe, InStep, Recorded, ReceiverStep, PlaceStep, StampStep;
    ReceiverKeeps(setup, m);
    var next := ReceiverStep(setup, m).value;
    if !next.r.Stamping? && !next.r.ReceiverReturned? {
      OnCourseIsSafe(setup, next);
    } else if m.r.Placing? {
      PlacingIsReached(setup, m);
      StepIsPlace(setup, m);
      PlaceFailsSafely(setup, m);
    } else if m.r.Stamping? {
      StepIsStamp(setup, m);
      StampIsSafe(setup, m);
    } else {
      OthersFail(setup, m);
      OkKeepsDisk(setup, m);
    }
  }

  /** A dry run returns from its last entry. */
  lemma OkKeepsDisk(setup: Setup, m: Machine)
    requires ReceiverStep(setup, m).Some? && !m.r.Placing? && !m.r.Stamping?
    ensures var next := ReceiverStep(setup, m).value; next.r.ReceiverReturned? && next.r.ok ==> Disk(setup, next) == Disk(setup, m)
  {
    hide ReceiveLocal, Prepare, Transfers, ReadDelta, NewData, Finished, MkdirAll, Remove, LinkTo;
  }

  lemma FaultIsSafe(setup: Setup, m: Machine, extra: nat, renames: bool)
    requires Sound(setup.job, setup.start) && Inv(setup, m) && ReceiverFault(setup, m, extra, renames).Some? && Safe(setup.job, Disk(setup, m))
    ensures Safe(setup.job, Disk(setup, ReceiverFault(setup, m, extra, renames).value))
  {
    hide Sound, OnCourse, Valid, Safe, InStep, Recorded, AbandonOrKeep, Fill;
    if m.r.Placing? && m.r.phase.Filling? {
      PlacingIsReached(setup, m);
      FaultIsAbort(setup, m, extra, renames);
      AbortIsSafe(setup, m, if m.r.phase.n + extra <= |m.r.data| then m.r.phase.n + extra else |m.r.data|, renames);
    } else {
      FaultIsFail(setup, m, extra, renames);
    }
  }

  /** At every step of every interleaving, with failures anywhere, the destination is an unaliased tree. */
  lemma {:induction false} SafeInEveryInterleaving(setup: Setup, schedule: seq<Choice>)
    requires Sound(setup.job, setup.start)
    ensures Safe(setup.job, Disk(setup, Exec(setup, schedule)))
  {
    hide Sound, Safe, Inv, Valid, SenderStep, ReceiverStep, SenderFault, ReceiverFault, WellFormed;
    SoundIsValid(setup.job, setup.start);
    if schedule == [] {
      assert Sound(setup.job, setup.start) ==> Safe(setup.job, setup.start) by {
        SoundIsSafe(setup.job, setup.start);
      }
    } else {
      var before := schedule[..|schedule| - 1];
      var m := Exec(setup, before);
      SafeInEveryInterleaving(setup, before);
      EveryInterleaving(setup, before);
      SenderLeavesReceiver(setup, m);
      match schedule[|schedule| - 1] {
        case RunReceiver => if ReceiverStep(setup, m).Some? { ReceiverStepsSafely(setup, m); }
        case BreakReceiver(extra, renames) => if ReceiverFault(setup, m, extra, renames).Some? { FaultIsSafe(setup, m, extra, renames); }
        case _ =>
      }
    }
  }

  lemma SoundIsSafe(job: Job, fs: FS)
    requires Sound(job, fs)
    ensures Safe(job, fs)
  {
  }

  /**
   * So a run that was aborted anywhere can be repeated: a later run that
   * succeeds on what it left settles every entry, and outside the append modes
   * puts the source's bytes at every transferred path.
   */
  lemma AbortedRunCanBeRepeated(setup: Setup, schedule: seq<Choice>, next: Job, i: nat)
    requires Sound(setup.job, setup.start) && Idempotence.Again(setup.job, next)
    requires Honest(next, Disk(setup, Exec(setup, schedule))) && Run(next, Disk(setup, Exec(setup, schedule))).Ok?
    requires i < N(setup)
    ensures var left := Disk(setup, Exec(setup, schedule));
      && Sound(next, left)
      && Settled(next, i, left, Final(next, left))
      && (Transfers(next.list, Entry(next, i)) && !next.cfg.ropts.AppendMode() ==>
            Entry(next, i).path in next.src && ContentAt(Final(next, left), Where(next, i)) == Some(next.src[Entry(next, i).path]))
  {
    hide Exec, Run, Honest, Final, WellFormed, Settled, Transfers;
    var left := Disk(setup, Exec(setup, schedule));
    SafeInEveryInterleaving(setup, schedule);
    LaterIsSound(setup.job, next, setup.start, left);
    hide Sound;
    RunSettles(next, left, i);
    if Transfers(next.list, Entry(next, i)) && !next.cfg.ropts.AppendMode() {
      SourceArrives(next, left, i);
    }
  }

  lemma LaterIsSound(job: Job, next: Job, start: FS, fs: FS)
    requires Sound(job, start) && Safe(job, fs) && Idempotence.Again(job, next)
    ensures Sound(next, fs)
  {
    hide WellFormed, Valid;
    forall i, j | 0 <= i < j < |next.list.entries| && Own(next, i) && Own(next, j) ensures !Shares(fs, Where(next, i), Where(next, j)) {
      assert Own(job, i) && Own(job, j) && Where(next, i) == Where(job, i) && Where(next, j) == Where(job, j);
    }
  }
}
