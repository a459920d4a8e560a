/**
 * What is on the destination's disk at every step of every interleaving, so
 * also wherever a run may be aborted: old bytes or complete new bytes.
 */
module Atomic {
  import opened Prelude
  import opened FileSystem
  import opened Entries
  import opened Delta
  import opened Receiver
  import opened SyncRun
  import opened TempWrite
  import opened LocalSync
  import opened Lockstep
  import opened Contents
  import opened PartialDirs
  import opened Effects
  import opened Runs
  import opened FinalPasses
  import opened EndToEnd
  import Attributes
  import Wire

  /** os.CreateTemp never picks the name of a listed entry. */
  ghost predicate TempUnlisted(setup: Setup) {
    forall fs, p, i :: 0 <= i < N(setup) ==> setup.temp(fs, p) != Where(setup.job, i)
  }

  // ---- One step at a time ----

  /** The file system the write of entry k began with. */
  lemma PlacingBase(setup: Setup, m: Machine) returns (made: FS)
    requires Valid(setup.start) && m.r.Placing? && OnCourse(setup, m.r) && !m.r.phase.Making?
    ensures m.r.k < N(setup) && MkdirAll(setup.job.cfg.proc, m.r.st.fs, Parent(At(setup.job.cfg, Entry(setup.job, m.r.k)))) == Ok(made)
    ensures Valid(made) && forall q :: ContentAt(made, q) == ContentAt(m.r.st.fs, q)
  {
    hide Valid, After, Prepare, Reply, ReadDelta, NewData, Install, OpenTemp, ContentAt;
    AfterIsValid(setup.job, setup.start, m.r.k);
    var p := Parent(At(setup.job.cfg, Entry(setup.job, m.r.k)));
    made := MkdirAll(setup.job.cfg.proc, m.r.st.fs, p).value;
    MkdirKeepsContent(setup.job.cfg.proc, m.r.st.fs, p, p);
    forall q ensures ContentAt(made, q) == ContentAt(m.r.st.fs, q) {
      MkdirKeepsContent(setup.job.cfg.proc, m.r.st.fs, p, q);
    }
  }

  /** While the temporary file is filled everything else is as it was, and it holds a prefix of the new bytes. */
  lemma FillingBeside(setup: Setup, m: Machine, n: nat) returns (made: FS)
    requires Valid(setup.start) && m.r.Placing? && OnCourse(setup, m.r) && m.r.phase.Filling? && n <= |m.r.data|
    ensures forall q :: ContentAt(made, q) == ContentAt(m.r.st.fs, q)
    ensures Beside(made, Fill(m.r.fs, m.r.phase.tmp, m.r.data[..n]), m.r.phase.tmp)
    ensures ContentAt(Fill(m.r.fs, m.r.phase.tmp, m.r.data[..n]), m.r.phase.tmp) == Some(m.r.data[..n])
    ensures m.r.phase.n == n ==> Fill(m.r.fs, m.r.phase.tmp, m.r.data[..n]) == m.r.fs
  {
    made := PlacingBase(setup, m);
    hide Valid, Understood, MkdirAll, OpenTemp, Fill, ContentAt, Beside, MustWrite;
    var p := At(setup.job.cfg, Entry(setup.job, m.r.k));
    var tmp := m.r.phase.tmp;
    var begun := OpenTemp(setup.job.cfg.proc, made, p, tmp).value;
    OpenedBeside(setup.job.cfg.proc, made, p, tmp);
    FilledBeside(made, begun, tmp, m.r.data[..n]);
    FillAgain(begun, tmp, m.r.data[..m.r.phase.n], m.r.data[..n]);
  }

  /** While entry k is put in place, contents elsewhere stay. */
  lemma PlacingElsewhere(setup: Setup, m: Machine, q: Path)
    requires Valid(setup.start) && m.r.Placing? && OnCourse(setup, m.r)
    requires m.r.k < N(setup) && (m.r.phase.Written? ==> q != At(setup.job.cfg, Entry(setup.job, m.r.k)))
    requires m.r.phase.Filling? ==> q != m.r.phase.tmp
    ensures ContentAt(m.r.fs, q) == ContentAt(m.r.st.fs, q)
  {
    var p := At(setup.job.cfg, Entry(setup.job, m.r.k));
    match m.r.phase
    case Making =>
    case Opening => var made := PlacingBase(setup, m);
    case Filling(tmp, n) =>
      assert n <= |m.r.data|;
      var made := FillingBeside(setup, m, n);
      hide OnCourse, Valid, Fill, ContentAt;
    case Written =>
      var made := PlacingBase(setup, m);
      hide Valid, Understood, MkdirAll, Install, ContentAt, MustWrite;
      if MustWrite(m.r.plan, m.r.data) {
        InstallKeepsContent(setup.job.cfg.proc, made, p, m.r.data, q);
      }
  }

  /** What an aborted write leaves. */
  lemma AbortedFill(setup: Setup, m: Machine, n: nat, renames: bool, q: Path)
    requires Valid(setup.start) && m.r.Placing? && OnCourse(setup, m.r) && m.r.phase.Filling? && m.r.k < N(setup)
    requires n <= |m.r.data| && q != m.r.phase.tmp
    ensures var cfg, e := setup.job.cfg, Entry(setup.job, m.r.k);
      var filled := Fill(m.r.fs, m.r.phase.tmp, m.r.data[..n]);
      var left := ContentAt(AbandonOrKeep(cfg, e, filled, m.r.phase.tmp, renames), q);
      left == ContentAt(m.r.st.fs, q) || (cfg.ropts.KeepPartial() && q == KeepAt(cfg, e) && left == Some(m.r.data[..n]))
  {
    var made := FillingBeside(setup, m, n);
    hide OnCourse, Valid, Beside, Fill, ContentAt, AbandonOrKeep;
    AbortLeaves(setup.job.cfg, Entry(setup.job, m.r.k), made, Fill(m.r.fs, m.r.phase.tmp, m.r.data[..n]), m.r.phase.tmp, renames, q);
  }

  // ---- Transferred files ----

  function Full(setup: Setup, i: nat): Bytes
    requires i < N(setup)
  {
    FinalContent(setup.job, Entry(setup.job, i), ContentAt(setup.start, Where(setup.job, i)))
  }

  function Was(setup: Setup, i: nat): Option<Bytes>
    requires i < N(setup)
  {
    ContentAt(setup.start, Where(setup.job, i))
  }

  /**
   * Entry i's path: finished entries hold their complete new bytes (or, where a
   * finished partial file held them back, their old ones), entries not yet
   * reached their old ones, and the entry in hand one or the other - or, once a
   * write failed under --partial without a directory, a prefix of the new bytes.
   */
  ghost predicate Intact(setup: Setup, m: Machine, i: nat)
    requires i < N(setup)
  {
    var now := ContentAt(Disk(setup, m), Where(setup.job, i));
    && (i < Position(setup, m) ==> now == Landed(setup.job, Entry(setup.job, i), setup.start))
    && (i > Position(setup, m) ==> now == Was(setup, i))
    && (i == Position(setup, m) ==> now == Was(setup, i) || now == Some(Full(setup, i)) || KeptPrefix(setup, m, now, Full(setup, i)))
  }

  predicate KeptPrefix(setup: Setup, m: Machine, now: Option<Bytes>, full: Bytes) {
    && setup.job.cfg.ropts.keepPartial && setup.job.cfg.ropts.partialDir.None?
    && m.r.ReceiverReturned? && !m.r.ok && now.Some? && now.value <= full
  }

  ghost predicate Ready(setup: Setup) {
    Clear(setup.job, setup.start) && TempUnlisted(setup)
  }

  lemma ReadyIsValid(setup: Setup)
    requires Ready(setup)
    ensures Valid(setup.start) && !setup.job.cfg.ropts.dryRun && WellFormed(setup.job.list) && Apart(setup.job)
  {
  }

  predicate ReachedDisk(setup: Setup, k: nat, fs: FS) {
    k <= N(setup) && After(setup.job, setup.start, k).Ok? && After(setup.job, setup.start, k).value.st.fs == fs
  }

  /** Between entries: finished ones hold what they landed on, the others their old bytes. */
  lemma BetweenEntries(setup: Setup, k: nat, fs: FS, i: nat)
    requires Ready(setup) && ReachedDisk(setup, k, fs) && i < N(setup) && Transfers(setup.job.list, Entry(setup.job, i))
    ensures ContentAt(fs, Where(setup.job, i)) == if i < k then Landed(setup.job, Entry(setup.job, i), setup.start) else Was(setup, i)
  {
    hide Clear, TempUnlisted, After, Landed, ContentAt, Transfers;
    ContentsSoFar(setup.job, setup.start, k, i);
  }

  /** The data to be put in place are the entry's final bytes. */
  lemma DataIsFull(setup: Setup, m: Machine)
    requires Ready(setup) && m.r.Placing? && OnCourse(setup, m.r) && m.r.k < N(setup)
    ensures m.r.data == Full(setup, m.r.k)
  {
    var job, k, e, fs := setup.job, m.r.k, Entry(setup.job, m.r.k), m.r.st.fs;
    PlacingIsPlanned(setup, m);
    ReadyIsValid(setup);
    assert NoCollisionOn(job, e, setup.start) && Wire.Inverts(job.cfg.codec) by {
      hide WellFormed, Valid, Apart, TempUnlisted, NoCollisionOn, Transfers;
    }
    hide Ready, PhaseOk, After, Valid, FinalContent, NoCollisionOn, WellFormed, Apart, Transfers, Prepare, Reply, ReadDelta, NewData, ContentAt;
    AheadAsBefore(job, setup.start, k, k);
    SameOutlook(job, e, setup.start, fs);
    AnswerLands(job, e, fs, m.r.plan, Answer(setup, k, m.r.plan).value);
  }

  lemma PlacingIsPlanned(setup: Setup, m: Machine)
    requires m.r.Placing? && OnCourse(setup, m.r)
    ensures Planned(setup, m.r.k, m.r.plan) && Answer(setup, m.r.k, m.r.plan).Ok? && After(setup.job, setup.start, m.r.k).value.st.fs == m.r.st.fs
    ensures ReadDelta(setup.job.cfg, Entry(setup.job, m.r.k), Answer(setup, m.r.k, m.r.plan).value) == Ok(m.r.ops)
    ensures NewData(m.r.plan, m.r.ops) == Ok(m.r.data)
  {
    hide After, Prepare, Reply, ReadDelta, NewData, PhaseOk, Transfers;
  }

  lemma WrittenIs(setup: Setup, m: Machine, made: FS)
    requires m.r.Placing? && OnCourse(setup, m.r) && m.r.phase.Written? && m.r.k < N(setup)
    requires MkdirAll(setup.job.cfg.proc, m.r.st.fs, Parent(Where(setup.job, m.r.k))) == Ok(made)
    ensures if MustWrite(m.r.plan, m.r.data) then Install(setup.job.cfg.proc, made, Where(setup.job, m.r.k), m.r.data) == Ok(m.r.fs) else m.r.fs == made
  {
    hide Understood, MkdirAll, Install, MustWrite;
  }

  /** Once the rename is done, or none is needed, the entry in hand holds its complete new bytes or its old ones. */
  lemma PlacedHere(setup: Setup, m: Machine)
    requires Ready(setup) && m.r.Placing? && OnCourse(setup, m.r) && m.r.phase.Written? && m.r.k < N(setup)
    ensures var now := ContentAt(m.r.fs, Where(setup.job, m.r.k));
      now == if MustWrite(m.r.plan, m.r.data) then Some(Full(setup, m.r.k)) else ContentAt(m.r.st.fs, Where(setup.job, m.r.k))
  {
    hide Ready, Valid, OnCourse, MkdirAll, Install, ContentAt, MustWrite, Full;
    ReadyIsValid(setup);
    DataIsFull(setup, m);
    var made := PlacingBase(setup, m);
    WrittenIs(setup, m, made);
    var p := Where(setup.job, m.r.k);
    if MustWrite(m.r.plan, m.r.data) {
      InstallKeepsContent(setup.job.cfg.proc, made, p, m.r.data, p);
    }
  }

  lemma PlacingIsReached(setup: Setup, m: Machine)
    requires m.r.Placing? && OnCourse(setup, m.r)
    ensures ReachedDisk(setup, m.r.k, m.r.st.fs) && m.r.k < N(setup)
  {
    hide After, Prepare, Reply, ReadDelta, NewData, PhaseOk;
  }

  lemma PlacingIntact(setup: Setup, m: Machine, i: nat)
    requires Ready(setup) && m.r.Placing? && OnCourse(setup, m.r)
    requires i < N(setup) && Transfers(setup.job.list, Entry(setup.job, i)) && (m.r.phase.Filling? ==> m.r.phase.tmp != Where(setup.job, i))
    ensures Intact(setup, m, i)
  {
    hide Ready, OnCourse, ReachedDisk, Full, ContentAt, Transfers, KeptPrefix, Valid;
    PlacingIsReached(setup, m);
    BetweenEntries(setup, m.r.k, m.r.st.fs, i);
    ReadyIsValid(setup);
    if i == m.r.k && m.r.phase.Written? {
      PlacedHere(setup, m);
    } else {
      if i != m.r.k {
        DifferentPlaces(setup, i, m.r.k);
      }
      PlacingElsewhere(setup, m, Where(setup.job, i));
    }
  }

  lemma DifferentPlaces(setup: Setup, i: nat, k: nat)
    requires Ready(setup) && i < N(setup) && k < N(setup) && i != k
    ensures Where(setup.job, i) != Where(setup.job, k)
  {
    hide Valid, Apart, Collisionless, TempUnlisted;
    PlacesDiffer(setup.job, i, k);
  }

  /** During the link pass every path that is not a secondary member keeps its inode and shape. */
  lemma LinkingKeeps(setup: Setup, m: Machine)
    requires WellFormed(setup.job.list) && Valid(setup.start) && m.r.Linking? && OnCourse(setup, m.r)
    ensures Keeps(setup.job, m.r.st.fs, m.r.fs)
  {
    var job, r := setup.job, m.r;
    AfterIsValid(job, setup.start, N(setup));
    hide WellFormed, Valid, Keeps, LinkedUpTo, After, MkdirAll, Remove;
    LinkPassHolds(job, r.st.fs, r.g);
    var base := LinkPass(job.cfg, job.list.groups, r.g, r.st.fs).value;
    if r.g < |job.list.groups| {
      GroupsHaveTwo(job.list, r.g);
      LinkGroupHolds(job, r.st.fs, base, r.g, r.n);
      if r.step != MakeParent {
        var here := LinkedSoFar(setup, r.st.fs, r.g, r.n).value;
        var member := job.list.groups[r.g][r.n];
        MidLink(setup, r.st.fs, here, r.fs, r.g, r.n, r.step);
      }
    }
  }

  lemma MidLink(setup: Setup, before: FS, here: FS, fs: FS, g: nat, n: nat, step: LinkPhase)
    requires WellFormed(setup.job.list) && Keeps(setup.job, before, here)
    requires g < |setup.job.list.groups| && 1 <= n < |setup.job.list.groups[g]|
    requires var member := setup.job.cfg.dest + setup.job.list.groups[g][n];
      var made := MkdirAll(setup.job.cfg.proc, here, Parent(member));
      made.Ok? && (fs == made.value || Remove(setup.job.cfg.proc, made.value, member) == Ok(fs))
    ensures Keeps(setup.job, before, fs)
  {
    hide WellFormed, Valid, Keeps, MkdirAll, Remove, Relinked;
    var member := setup.job.cfg.dest + setup.job.list.groups[g][n];
    var made := MkdirAll(setup.job.cfg.proc, here, Parent(member)).value;
    MemberIsSecondary(setup.job.list, g, n);
    KeepsIsValid(setup.job, before, here);
    MkdirRelinks(setup.job.cfg, here, member);
    KeepsStep(setup.job, before, here, made, setup.job.list.groups[g][n]);
    if fs != made {
      RemoveRelinks(setup.job.cfg, made, member);
      KeepsStep(setup.job, before, made, fs, setup.job.list.groups[g][n]);
    }
  }

  lemma LinkingIntact(setup: Setup, m: Machine, i: nat)
    requires Ready(setup) && m.r.Linking? && OnCourse(setup, m.r)
    requires i < N(setup) && Transfers(setup.job.list, Entry(setup.job, i))
    ensures ContentAt(m.r.fs, Where(setup.job, i)) == Landed(setup.job, Entry(setup.job, i), setup.start)
  {
    ReadyIsValid(setup);
    LinkingKeeps(setup, m);
    AfterIsValid(setup.job, setup.start, N(setup));
    hide Ready, Keeps, Landed, ContentAt, Valid, WellFormed, Apart, After, LinkingOk, Transfers, Member;
    BetweenEntries(setup, N(setup), m.r.st.fs, i);
    FileIsNoMember(setup.job, i);
    KeptBytes(setup.job, m.r.st.fs, m.r.fs, Where(setup.job, i));
  }

  lemma TempElsewhere(setup: Setup, m: Machine, i: nat)
    requires Ready(setup) && m.r.Placing? && OnCourse(setup, m.r) && m.r.phase.Filling? && i < N(setup)
    ensures m.r.phase.tmp != Where(setup.job, i) && m.r.k < N(setup) && m.r.phase.n <= |m.r.data|
  {
    hide Understood, MkdirAll, OpenTemp, Fill, MustWrite, Clear;
    PlacingIsReached(setup, m);
  }

  /** Wherever the sequential run alone decides the disk. */
  lemma OnCourseIntact(setup: Setup, m: Machine, i: nat)
    requires Ready(setup) && OnCourse(setup, m.r) && !m.r.Stamping? && !m.r.ReceiverReturned?
    requires i < N(setup) && Transfers(setup.job.list, Entry(setup.job, i))
    ensures Intact(setup, m, i)
  {
    hide Ready, Full, ContentAt, Transfers, KeptPrefix, After, PhaseOk, LinkingOk, Understood, Prepare;
    match m.r
    case AwaitingList =>
    case AtEntry(k, st) => BetweenEntries(setup, k, st.fs, i);
    case Asking(k, st, _) => BetweenEntries(setup, k, st.fs, i);
    case AskBlocked(k, st, _) => BetweenEntries(setup, k, st.fs, i);
    case AwaitingDelta(k, st, _) => BetweenEntries(setup, k, st.fs, i);
    case Placing(_, _, _, _, _, _, phase) =>
      if phase.Filling? {
        TempElsewhere(setup, m, i);
      }
      PlacingIntact(setup, m, i);
    case Linking(_, _, _, _, _) => LinkingIntact(setup, m, i);
  }

  /** Returning an error without touching the disk. */
  lemma FailingIntact(setup: Setup, m: Machine, next: Machine, i: nat)
    requires i < N(setup) && Intact(setup, m, i) && !m.r.ReceiverReturned? && next.r == Fail(setup, m)
    ensures Intact(setup, next, i)
  {
    hide ContentAt, Full;
  }

  /** The write in hand fails with n bytes in the temporary file. */
  lemma AbortingIntact(setup: Setup, m: Machine, next: Machine, n: nat, renames: bool, i: nat)
    requires Ready(setup) && m.r.Placing? && OnCourse(setup, m.r) && m.r.phase.Filling? && n <= |m.r.data|
    requires i < N(setup) && Transfers(setup.job.list, Entry(setup.job, i)) && Intact(setup, m, i) && m.r.k < N(setup)
    requires next.r == FailWith(setup, m, AbandonOrKeep(setup.job.cfg, Entry(setup.job, m.r.k), Fill(m.r.fs, m.r.phase.tmp, m.r.data[..n]), m.r.phase.tmp, renames))
    ensures Intact(setup, next, i)
  {
    hide Ready, OnCourse, Valid, Transfers, AbandonOrKeep, Fill, ContentAt, Full, MustWrite, Landed, WellFormed, Apart;
    ReadyIsValid(setup);
    TempElsewhere(setup, m, i);
    DataIsFull(setup, m);
    PlacingElsewhere(setup, m, Where(setup.job, i));
    AbortedFill(setup, m, n, renames, Where(setup.job, i));
    TransferInHand(setup, m);
    KeptElsewhere(setup, m.r.k, i);
    if i != m.r.k {
      DifferentPlaces(setup, i, m.r.k);
    }
  }

  /** With a partial directory, what is kept is kept away from every listed path; without, at the entry's own. */
  lemma KeptElsewhere(setup: Setup, k: nat, i: nat)
    requires Apart(setup.job) && k < N(setup) && i < N(setup) && Transfers(setup.job.list, Entry(setup.job, k))
    ensures var cfg := setup.job.cfg;
      if cfg.ropts.partialDir.Some? then KeepAt(cfg, Entry(setup.job, k)) != Where(setup.job, i)
      else KeepAt(cfg, Entry(setup.job, k)) == Where(setup.job, k)
  {
    if setup.job.cfg.ropts.partialDir.Some? {
      assert Spot(setup.job.cfg, Entry(setup.job, k)) != Where(setup.job, i);
    }
  }

  lemma PlaceFailsIntact(setup: Setup, m: Machine, next: Machine, i: nat)
    requires Ready(setup) && m.r.Placing? && OnCourse(setup, m.r) && m.r.k < N(setup)
    requires i < N(setup) && Transfers(setup.job.list, Entry(setup.job, i)) && Intact(setup, m, i)
    requires next.r == PlaceStep(setup, m) && next.r.ReceiverReturned?
    ensures Intact(setup, next, i)
  {
    ReadyIsValid(setup);
    if m.r.phase.Filling? {
      TempElsewhere(setup, m, i);
      var made := FillingBeside(setup, m, m.r.phase.n);
      FillingFails(setup, m);
      AbortingIntact(setup, m, next, m.r.phase.n, true, i);
    } else {
      PlainFails(setup, m);
      StampFailIntact(setup, m, next, i);
    }
  }

  /** Failing outside the write: the disk as it was, but for a partial file that is no longer needed. */
  lemma StampFailIntact(setup: Setup, m: Machine, next: Machine, i: nat)
    requires Ready(setup) && m.r.Placing? && OnCourse(setup, m.r) && m.r.k < N(setup)
    requires i < N(setup) && Transfers(setup.job.list, Entry(setup.job, i)) && Intact(setup, m, i)
    requires next.r == Fail(setup, m) || next.r == FailWith(setup, m, DropPartial(setup.job.cfg, Entry(setup.job, m.r.k), m.r.plan, m.r.fs))
    ensures Intact(setup, next, i)
  {
    hide Ready, OnCourse, Planned, Valid, Transfers, DropPartial, ContentAt, Full, Landed, WellFormed, Apart, PartialPath;
    if next.r == Fail(setup, m) {
      FailingIntact(setup, m, next, i);
    } else {
      ReadyIsValid(setup);
      TransferInHand(setup, m);
      DiskIsValid(setup, m);
      KeptElsewhere(setup, m.r.k, i);
      DropSpares(setup.job.cfg, Entry(setup.job, m.r.k), m.r.plan, m.r.fs, Where(setup.job, i));
      NoDirectoryNoDrop(setup.job.cfg, Entry(setup.job, m.r.k), m.r.plan, m.r.fs);
    }
  }

  lemma TransferInHand(setup: Setup, m: Machine)
    requires m.r.Placing? && OnCourse(setup, m.r)
    ensures m.r.k < N(setup) && Transfers(setup.job.list, Entry(setup.job, m.r.k))
  {
    hide After, Prepare, Reply, ReadDelta, NewData, PhaseOk, Transfers;
  }

  lemma NoDirectoryNoDrop(cfg: Config, e: FileEntry, plan: Plan, fs: FS)
    ensures cfg.ropts.partialDir.None? ==> DropPartial(cfg, e, plan, fs) == fs
  {
  }

  lemma FillingFails(setup: Setup, m: Machine)
    requires m.r.Placing? && m.r.phase.Filling? && m.r.k < N(setup) && PlaceStep(setup, m).ReceiverReturned?
    ensures PlaceStep(setup, m) == FailWith(setup, m, AbandonOrKeep(setup.job.cfg, Entry(setup.job, m.r.k), m.r.fs, m.r.phase.tmp, true))
  {
    hide RenameOnto, AbandonOrKeep, Fill;
  }

  lemma PlainFails(setup: Setup, m: Machine)
    requires m.r.Placing? && !m.r.phase.Filling? && m.r.k < N(setup) && PlaceStep(setup, m).ReceiverReturned?
    ensures PlaceStep(setup, m) == Fail(setup, m)
         || PlaceStep(setup, m) == FailWith(setup, m, DropPartial(setup.job.cfg, Entry(setup.job, m.r.k), m.r.plan, m.r.fs))
  {
    hide MkdirAll, OpenTemp, Attributes.ApplyAttributes, Finished, MustWrite, DropPartial;
  }

  /** The disk is a tree at every step of placing a file. */
  lemma DiskIsValid(setup: Setup, m: Machine)
    requires Valid(setup.start) && m.r.Placing? && OnCourse(setup, m.r)
    ensures Valid(m.r.fs)
  {
    PlacingIsPlanned(setup, m);
    AfterIsValid(setup.job, setup.start, m.r.k);
    if !m.r.phase.Making? {
      var made := PlacingBase(setup, m);
      match m.r.phase
      case Making =>
      case Opening => hide Valid, Understood, MkdirAll;
      case Filling(tmp, n) =>
        FillLength(setup, m);
        var base := FillingBeside(setup, m, n);
        hide OnCourse, Fill;
      case Written =>
        WrittenIs(setup, m, made);
        hide Valid, OnCourse, MkdirAll, Install, WorksOn, MustWrite;
        if MustWrite(m.r.plan, m.r.data) {
          InstallWorks(setup.job.cfg.proc, made, Where(setup.job, m.r.k), m.r.data);
        }
    } else {
      hide After, Prepare, Reply, ReadDelta, NewData, Valid;
    }
  }

  lemma FillLength(setup: Setup, m: Machine)
    requires m.r.Placing? && OnCourse(setup, m.r) && m.r.phase.Filling?
    ensures m.r.phase.n <= |m.r.data|
  {
    hide Understood, MkdirAll, OpenTemp, Fill, MustWrite;
  }

  lemma StampIntact(setup: Setup, m: Machine, next: Machine, i: nat)
    requires m.r.Stamping? && m.r.k <= N(setup) && i < N(setup) && Intact(setup, m, i) && next.r == StampStep(setup, m)
    ensures Intact(setup, next, i)
  {
    hide ContentAt, Full, Attributes.ApplyPlain;
    if m.r.k > 0 && Entry(setup.job, m.r.k - 1).kind == Directory {
      var e := Entry(setup.job, m.r.k - 1);
      if Attributes.ApplyPlain(m.r.fs, e, At(setup.job.cfg, e), setup.job.cfg.attrs).Ok? {
        PlainKeepsContent(m.r.fs, e, At(setup.job.cfg, e), setup.job.cfg.attrs, Where(setup.job, i));
      }
    }
  }

  /** How the other steps end the receiver: the disk is as it was. */
  lemma OthersFail(setup: Setup, m: Machine)
    requires ReceiverStep(setup, m).Some? && !m.r.Placing? && !m.r.Stamping?
    ensures var next := ReceiverStep(setup, m).value;
      && (next.r.ReceiverReturned? && !next.r.ok ==> next.r == Fail(setup, m))
      && (next.r.ReceiverReturned? && next.r.ok ==> setup.job.cfg.ropts.dryRun)
      && (next.r.Stamping? ==> m.r.Linking? && next.r == Stamping(N(setup), m.r.st, m.r.fs))
  {
    hide ReceiveLocal, Prepare, Transfers, ReadDelta, NewData, Finished, MkdirAll, Remove, LinkTo;
  }

  lemma ReceiverKeepsIntact(setup: Setup, m: Machine, i: nat)
    requires Ready(setup) && Inv(setup, m) && ReceiverStep(setup, m).Some?
    requires i < N(setup) && Transfers(setup.job.list, Entry(setup.job, i)) && Intact(setup, m, i)
    ensures Intact(setup, ReceiverStep(setup, m).value, i)
  {
    hide Ready, Transfers, Intact, OnCourse, Valid, InStep, Recorded, ReceiverStep;
    ReceiverKeeps(setup, m);
    ReadyIsValid(setup);
    var next := ReceiverStep(setup, m).value;
    if !next.r.Stamping? && !next.r.ReceiverReturned? {
      OnCourseIntact(setup, next, i);
    } else if m.r.Placing? {
      PlacingIsReached(setup, m);
      StepIsPlace(setup, m);
      PlaceFailsIntact(setup, m, next, i);
    } else if m.r.Stamping? {
      StepIsStamp(setup, m);
      StampIntact(setup, m, next, i);
    } else {
      OthersFail(setup, m);
      if next.r.Stamping? {
        SameDiskIntact(setup, m, next, i);
      } else {
        ReturnedRests(setup, m);
        FailingIntact(setup, m, next, i);
      }
    }
  }

  lemma StepIsPlace(setup: Setup, m: Machine)
    requires ReceiverStep(setup, m).Some? && m.r.Placing? && m.r.k < N(setup) && OnCourse(setup, m.r)
    ensures ReceiverStep(setup, m).value.r == PlaceStep(setup, m)
    ensures !PlaceStep(setup, m).Stamping?
  {
    hide PlaceStep;
    hide OnCourse;
    PlaceIsNoStamp(setup, m);
  }

  lemma PlaceIsNoStamp(setup: Setup, m: Machine)
    requires m.r.Placing? && m.r.k < N(setup)
    ensures !PlaceStep(setup, m).Stamping?
  {
    hide MkdirAll, OpenTemp, Fill, RenameOnto, Attributes.ApplyAttributes, DropPartial, AbandonOrKeep, Finished, MustWrite;
  }

  lemma StepIsStamp(setup: Setup, m: Machine)
    requires ReceiverStep(setup, m).Some? && m.r.Stamping? && OnCourse(setup, m.r)
    ensures m.r.k <= N(setup) && ReceiverStep(setup, m).value.r == StampStep(setup, m)
  {
    hide StampStep, Passes, DirPass, Reached;
  }

  lemma SameDiskIntact(setup: Setup, m: Machine, next: Machine, i: nat)
    requires i < N(setup) && Intact(setup, m, i) && m.r.Linking? && next.r == Stamping(N(setup), m.r.st, m.r.fs)
    ensures Intact(setup, next, i)
  {
    hide ContentAt, Full;
  }

  lemma FaultKeepsIntact(setup: Setup, m: Machine, extra: nat, renames: bool, i: nat)
    requires Ready(setup) && Inv(setup, m) && ReceiverFault(setup, m, extra, renames).Some?
    requires i < N(setup) && Transfers(setup.job.list, Entry(setup.job, i)) && Intact(setup, m, i)
    ensures Intact(setup, ReceiverFault(setup, m, extra, renames).value, i)
  {
    hide Ready, Transfers, Intact, OnCourse, Valid, InStep, Recorded, AbandonOrKeep, Fill;
    var next := ReceiverFault(setup, m, extra, renames).value;
    if m.r.Placing? && m.r.phase.Filling? {
      PlacingIsReached(setup, m);
      FaultIsAbort(setup, m, extra, renames);
      var n := if m.r.phase.n + extra <= |m.r.data| then m.r.phase.n + extra else |m.r.data|;
      hide Inv, ReceiverFault;
      AbortingIntact(setup, m, next, n, renames, i);
    } else {
      FaultIsFail(setup, m, extra, renames);
      hide Inv, ReceiverFault;
      FailingIntact(setup, m, next, i);
    }
  }

  lemma FaultIsAbort(setup: Setup, m: Machine, extra: nat, renames: bool)
    requires ReceiverFault(setup, m, extra, renames).Some? && m.r.Placing? && m.r.phase.Filling? && m.r.k < N(setup)
    ensures var n := if m.r.phase.n + extra <= |m.r.data| then m.r.phase.n + extra else |m.r.data|;
      ReceiverFault(setup, m, extra, renames).value.r
      == FailWith(setup, m, AbandonOrKeep(setup.job.cfg, Entry(setup.job, m.r.k), Fill(m.r.fs, m.r.phase.tmp, m.r.data[..n]), m.r.phase.tmp, renames))
  {
    hide AbandonOrKeep, Fill;
  }

  lemma FaultIsFail(setup: Setup, m: Machine, extra: nat, renames: bool)
    requires ReceiverFault(setup, m, extra, renames).Some? && !(m.r.Placing? && m.r.phase.Filling?)
    ensures ReceiverFault(setup, m, extra, renames).value.r == Fail(setup, m) && !m.r.ReceiverReturned?
  {
  }

  lemma SenderKeepsIntact(setup: Setup, m: Machine, next: Machine, i: nat)
    requires i < N(setup) && Intact(setup, m, i) && next.r == m.r
    ensures Intact(setup, next, i)
  {
    hide ContentAt, Full;
  }

  lemma SenderLeavesReceiver(setup: Setup, m: Machine)
    ensures SenderStep(setup, m).Some? ==> SenderStep(setup, m).value.r == m.r
    ensures SenderFault(m).Some? ==> SenderFault(m).value.r == m.r
  {
    hide Reply, Transfers;
  }

  /**
   * Atomic files: at every step of every interleaving, with failures and
   * aborts anywhere, each transferred path holds its old bytes or its complete
   * new bytes, and finished files stay finished; only a write that failed
   * under --partial without a partial directory leaves a prefix of the new bytes.
   */
  lemma {:induction false} FilesAreAtomic(setup: Setup, schedule: seq<Choice>, i: nat)
    requires Ready(setup) && i < N(setup) && Transfers(setup.job.list, Entry(setup.job, i))
    ensures Intact(setup, Exec(setup, schedule), i)
  {
    hide Ready, Transfers, Intact, Valid, Inv, SenderStep, ReceiverStep, SenderFault, ReceiverFault;
    ReadyIsValid(setup);
    if schedule == [] {
      StartIsIntact(setup, i);
    } else {
      var before := schedule[..|schedule| - 1];
      var m := Exec(setup, before);
      FilesAreAtomic(setup, before, i);
      EveryInterleaving(setup, before);
      SenderLeavesReceiver(setup, m);
      match schedule[|schedule| - 1] {
        case RunSender => SenderKeepsIntact(setup, m, Exec(setup, schedule), i);
        case RunReceiver => if ReceiverStep(setup, m).Some? { ReceiverKeepsIntact(setup, m, i); }
        case BreakSender => SenderKeepsIntact(setup, m, Exec(setup, schedule), i);
        case BreakReceiver(extra, renames) => if ReceiverFault(setup, m, extra, renames).Some? { FaultKeepsIntact(setup, m, extra, renames, i); }
      }
    }
  }

  lemma StartIsIntact(setup: Setup, i: nat)
    requires i < N(setup)
    ensures Intact(setup, Init(setup), i)
  {
    hide ContentAt, Full;
  }
}
