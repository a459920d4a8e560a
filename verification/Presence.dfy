/** Which listed files are absent from the destination at some point of a run that succeeds. */
module Presence {
  import opened Prelude
  import opened FileSystem
  import opened Entries
  import opened Delta
  import opened Receiver
  import opened SyncRun
  import opened TempWrite
  import opened LocalSync
  import opened Lockstep
  import opened Effects
  import opened Runs
  import opened FinalPasses
  import opened Contents
  import opened PartialDirs
  import opened Atomic
  import opened Names
  import opened Members
  import Attributes

  /** What named something still does. */
  predicate Remains(fs: FS, after: FS, q: Path) {
    q in fs.names ==> q in after.names
  }

  lemma StaysRemains(fs: FS, after: FS, q: Path)
    requires Stays(fs, after, q)
    ensures Remains(fs, after, q)
  {
  }

  lemma MkdirRemains(proc: Process, fs: FS, d: Path, q: Path)
    requires Valid(fs) && MkdirAll(proc, fs, d).Ok?
    ensures Remains(fs, MkdirAll(proc, fs, d).value, q) && Valid(MkdirAll(proc, fs, d).value)
  {
    hide Valid, MkdirAll, Stays;
    MkdirStays(proc, fs, d, q);
    StaysRemains(fs, MkdirAll(proc, fs, d).value, q);
  }

  // ---- One entry ----

  /** Committing a file takes no name but its partial file's. */
  lemma CommitRemains(cfg: Config, e: FileEntry, plan: Plan, data: Bytes, fs: FS, q: Path)
    requires Valid(fs) && e.kind == Regular && Commit(cfg, e, plan, data, fs).Ok?
    requires cfg.ropts.partialDir.Some? ==> q != Spot(cfg, e)
    ensures Remains(fs, Commit(cfg, e, plan, data, fs).value, q)
  {
    hide Valid, WorksOn, MkdirAll, Install, DropPartial, Attributes.ApplyPlain, Stays, Parent, PartialPath, MustWrite;
    var p := At(cfg, e);
    var made := MkdirAll(cfg.proc, fs, Parent(p)).value;
    MkdirRemains(cfg.proc, fs, Parent(p), q);
    var written := WriteContent(cfg, e, plan, data, made).value;
    if MustWrite(plan, data) {
      var installed := Install(cfg.proc, made, p, data).value;
      InstallWorks(cfg.proc, made, p, data);
      DropStays(cfg, e, plan, installed, q);
      StaysRemains(installed, written, q);
    }
    PlainStays(written, e, p, cfg.attrs, q);
  }

  lemma LocalRemains(cfg: Config, e: FileEntry, st: State, q: Path)
    requires Valid(st.fs) && ReceiveLocal(cfg, e, st).Ok?
    ensures Remains(st.fs, ReceiveLocal(cfg, e, st).value.fs, q)
  {
    hide Valid, WorksOn, MkdirAll, Attributes.ApplyAttributes, Stays, Parent;
    var p := At(cfg, e);
    if e.kind == Symlinked && q == p {
      if !cfg.ropts.dryRun && cfg.attrs.links {
        MkdirRemains(cfg.proc, st.fs, Parent(p), q);
        Attributes.ApplyAttributesLinkWorks(cfg.proc, MkdirAll(cfg.proc, st.fs, Parent(p)).value, e, p, cfg.attrs);
      }
    } else {
      LocalStays(cfg, e, st, q);
      StaysRemains(st.fs, ReceiveLocal(cfg, e, st).value.fs, q);
    }
  }

  lemma EntryRemains(job: Job, e: FileEntry, pr: Progress, q: Path)
    requires Valid(pr.st.fs) && SyncEntry(job, e, pr).Ok?
    requires Transfers(job.list, e) && job.cfg.ropts.partialDir.Some? ==> q != Spot(job.cfg, e)
    ensures Remains(pr.st.fs, SyncEntry(job, e, pr).value.st.fs, q)
  {
    var cfg, fs := job.cfg, pr.st.fs;
    hide Valid, Prepare, Reply, ReadDelta, NewData, Commit, PartialPath;
    if Transfers(job.list, e) {
      if !cfg.ropts.dryRun {
        var plan := Prepare(cfg, e, fs).value;
        var msg := Reply(cfg, job.src, e, SignatureFor(e, plan)).value;
        CommitRemains(cfg, e, plan, NewData(plan, ReadDelta(cfg, e, msg).value).value, fs, q);
      }
    } else {
      LocalRemains(cfg, e, pr.st, q);
    }
  }

  /** No entry takes the name of a listed path. */
  lemma {:induction false} RemainsSoFar(job: Job, start: FS, k: nat, i: nat)
    requires Apart(job) && Valid(start) && k <= |job.list.entries| && After(job, start, k).Ok? && i < |job.list.entries|
    ensures Remains(start, After(job, start, k).value.st.fs, Where(job, i))
  {
    hide Valid, SyncEntry, Transfers;
    if k > 0 {
      RemainsSoFar(job, start, k - 1, i);
      AfterIsValid(job, start, k - 1);
      if job.cfg.ropts.partialDir.Some? && Transfers(job.list, Entry(job, k - 1)) {
        assert Spot(job.cfg, Entry(job, k - 1)) != Where(job, i);
      }
      hide Apart, PartialPath;
      EntryRemains(job, Entry(job, k - 1), After(job, start, k - 1).value, Where(job, i));
    }
  }

  // ---- Every step ----

  lemma PlacingRemains(setup: Setup, m: Machine, q: Path)
    requires Valid(setup.start) && m.r.Placing? && OnCourse(setup, m.r)
    ensures Remains(m.r.st.fs, m.r.fs, q)
  {
    PlacingIsReached(setup, m);
    hide Valid, Understood, MkdirAll, OpenTemp, Fill, Install, After, MustWrite, WorksOn;
    if !m.r.phase.Making? {
      var made := PlacingBase(setup, m);
      var proc, p := setup.job.cfg.proc, Where(setup.job, m.r.k);
      AfterIsValid(setup.job, setup.start, m.r.k);
      MkdirRemains(proc, m.r.st.fs, Parent(p), q);
      match m.r.phase
      case Making =>
      case Opening =>
      case Filling(tmp, n) =>
        OpenedBeside(proc, made, p, tmp);
        FilledBeside(made, OpenTemp(proc, made, p, tmp).value, tmp, m.r.data[..n]);
      case Written =>
        WrittenIs(setup, m, made);
        if MustWrite(m.r.plan, m.r.data) {
          InstallWorks(proc, made, p, m.r.data);
        }
    }
  }

  lemma OnCourseRemains(setup: Setup, m: Machine, i: nat)
    requires Orderly(setup) && OnCourse(setup, m.r) && !m.r.Stamping? && !m.r.ReceiverReturned?
    requires i < N(setup) && Transfers(setup.job.list, Entry(setup.job, i))
    ensures Remains(setup.start, Disk(setup, m), Where(setup.job, i))
  {
    OrderlyIs(setup);
    hide Orderly, WellFormed, Apart, Valid, After, PhaseOk, LinkingOk, Prepare, Transfers, Reply, ReadDelta, NewData;
    match m.r
    case AwaitingList =>
    case AtEntry(k, _) => RemainsSoFar(setup.job, setup.start, k, i);
    case Asking(k, _, _) => RemainsSoFar(setup.job, setup.start, k, i);
    case AskBlocked(k, _, _) => RemainsSoFar(setup.job, setup.start, k, i);
    case AwaitingDelta(k, _, _) => RemainsSoFar(setup.job, setup.start, k, i);
    case Placing(k, _, _, _, _, _, _) =>
      RemainsSoFar(setup.job, setup.start, k, i);
      PlacingRemains(setup, m, Where(setup.job, i));
    case Linking(_, _, _, _, _) =>
      RemainsSoFar(setup.job, setup.start, N(setup), i);
      LinkingKeeps(setup, m);
      FileIsNoMember(setup.job, i);
      hide Member;
      KeptNamed(setup.job, m.r.st.fs, m.r.fs, Where(setup.job, i));
  }

  lemma KeptNamed(job: Job, from: FS, fs: FS, q: Path)
    requires Keeps(job, from, fs) && !Member(job, q)
    ensures Remains(from, fs, q)
  {
    hide Member, AboveMember;
  }

  lemma StampRemains(setup: Setup, m: Machine)
    requires m.r.Stamping? && m.r.k <= N(setup)
    ensures var next := StampStep(setup, m);
      && (next.Stamping? || next.ReceiverReturned?)
      && (if next.Stamping? then next.fs.names else next.st.fs.names) == m.r.fs.names
  {
    if m.r.k > 0 && Entry(setup.job, m.r.k - 1).kind == Directory {
      var e := Entry(setup.job, m.r.k - 1);
      if Attributes.ApplyPlain(m.r.fs, e, At(setup.job.cfg, e), setup.job.cfg.attrs).Ok? {
        PlainStays(m.r.fs, e, At(setup.job.cfg, e), setup.job.cfg.attrs, []);
      }
    }
    hide Attributes.ApplyPlain;
  }

  lemma ReceiverRemains(setup: Setup, m: Machine, i: nat)
    requires Orderly(setup) && Inv(setup, m) && ReceiverStep(setup, m).Some? && !Failed(ReceiverStep(setup, m).value.r)
    requires i < N(setup) && Transfers(setup.job.list, Entry(setup.job, i)) && Remains(setup.start, Disk(setup, m), Where(setup.job, i))
    ensures Remains(setup.start, Disk(setup, ReceiverStep(setup, m).value), Where(setup.job, i))
  {
    hide Orderly, OnCourse, Valid, InStep, Recorded, ReceiverStep, PlaceStep, StampStep;
    ReceiverKeeps(setup, m);
    OrderlyIs(setup);
    hide WellFormed, Apart, Transfers;
    var next := ReceiverStep(setup, m).value;
    if !next.r.Stamping? && !next.r.ReceiverReturned? {
      OnCourseRemains(setup, next, i);
    } else if m.r.Placing? {
      PlacingIsReached(setup, m);
      StepIsPlace(setup, m);
      PlaceNeverEndsWell(setup, m);
    } else if m.r.Stamping? {
      StepIsStamp(setup, m);
      StampRemains(setup, m);
    } else {
      OthersFail(setup, m);
    }
  }

  lemma PlaceNeverEndsWell(setup: Setup, m: Machine)
    requires m.r.Placing? && m.r.k < N(setup)
    ensures PlaceStep(setup, m).ReceiverReturned? ==> Failed(PlaceStep(setup, m))
  {
    hide MkdirAll, OpenTemp, Fill, RenameOnto, Attributes.ApplyAttributes, DropPartial, AbandonOrKeep, Finished, MustWrite;
  }

  /** A transferred path that named something keeps naming something, as long as the receiver has not failed. */
  lemma {:induction false} TransferredRemains(setup: Setup, schedule: seq<Choice>, i: nat)
    requires Orderly(setup) && i < N(setup) && Transfers(setup.job.list, Entry(setup.job, i)) && !Failed(Exec(setup, schedule).r)
    ensures Remains(setup.start, Disk(setup, Exec(setup, schedule)), Where(setup.job, i))
  {
    hide Orderly, Inv, SenderStep, ReceiverStep, SenderFault, ReceiverFault, Transfers;
    OrderlyIs(setup);
    if schedule != [] {
      var before := schedule[..|schedule| - 1];
      var m := Exec(setup, before);
      if Failed(m.r) {
        ReturnedStays(setup, m, schedule[|schedule| - 1]);
      }
      TransferredRemains(setup, before, i);
      EveryInterleaving(setup, before);
      SenderLeavesReceiver(setup, m);
      hide WellFormed, Valid, Apart;
      match schedule[|schedule| - 1] {
        case RunReceiver => if ReceiverStep(setup, m).Some? { ReceiverRemains(setup, m, i); }
        case BreakReceiver(extra, renames) => FaultFails(setup, m, extra, renames);
        case _ =>
      }
    }
  }

  // ---- The whole of a run that succeeds ----

  lemma {:induction false} FailureIsFinal(setup: Setup, schedule: seq<Choice>, t: nat)
    requires t <= |schedule| && Failed(Exec(setup, schedule[..t]).r)
    ensures Failed(Exec(setup, schedule).r)
  {
    hide Next;
    if t < |schedule| {
      var before := schedule[..|schedule| - 1];
      assert before[..t] == schedule[..t];
      FailureIsFinal(setup, before, t);
      ReturnedStays(setup, Exec(setup, before), schedule[|schedule| - 1]);
    } else {
      assert schedule[..t] == schedule;
    }
  }

  /** The path of entry i names something after every number of choices. */
  predicate NeverAbsent(setup: Setup, schedule: seq<Choice>, i: nat)
    requires i < N(setup)
  {
    forall t :: 0 <= t <= |schedule| ==> Where(setup.job, i) in Disk(setup, Exec(setup, schedule[..t])).names
  }

  lemma SecondaryIsMember(job: Job, p: Path) returns (g: nat, n: nat)
    requires Secondary(job.list.groups, p)
    ensures IsMember(job, g, n) && job.list.groups[g][n] == p
  {
    g :| 0 <= g < |job.list.groups| && job.list.groups[g] != [] && p in job.list.groups[g][1..];
    var j :| 0 <= j < |job.list.groups[g][1..]| && job.list.groups[g][1..][j] == p;
    n := j + 1;
  }

  /**
   * In every interleaving of a run that succeeds, a listed file that was there
   * at the start is there after every step if and only if it is not a
   * secondary hard-link member.
   */
  lemma AbsentIffSecondary(setup: Setup, schedule: seq<Choice>, i: nat)
    requires Orderly(setup) && BothReturned(Exec(setup, schedule)) && Outcome(Exec(setup, schedule))
    requires i < N(setup) && Entry(setup.job, i).kind == Regular && Where(setup.job, i) in setup.start.names
    ensures NeverAbsent(setup, schedule, i) <==> !Secondary(setup.job.list.groups, Entry(setup.job, i).path)
  {
    hide Orderly, Exec, Secondary;
    if Secondary(setup.job.list.groups, Entry(setup.job, i).path) {
      var t := AbsentMidway(setup, schedule, i);
    } else {
      forall t | 0 <= t <= |schedule| ensures Where(setup.job, i) in Disk(setup, Exec(setup, schedule[..t])).names {
        if Failed(Exec(setup, schedule[..t]).r) {
          FailureIsFinal(setup, schedule, t);
        }
        TransferredRemains(setup, schedule[..t], i);
      }
    }
  }

  lemma AbsentMidway(setup: Setup, schedule: seq<Choice>, i: nat) returns (t: nat)
    requires Orderly(setup) && BothReturned(Exec(setup, schedule)) && Outcome(Exec(setup, schedule))
    requires i < N(setup) && Where(setup.job, i) in setup.start.names && Secondary(setup.job.list.groups, Entry(setup.job, i).path)
    ensures t <= |schedule| && Where(setup.job, i) !in Disk(setup, Exec(setup, schedule[..t])).names
  {
    hide Exec, Secondary, Stays;
    OrderlyIs(setup);
    hide Orderly, WellFormed, Valid, Apart;
    var g, n := SecondaryIsMember(setup.job, Entry(setup.job, i).path);
    t := PassedThrough(setup, schedule, g, n);
    var s := MembersInEveryInterleaving(setup, schedule[..t], g, n);
    assert schedule[..t][..s] == schedule[..t];
  }
}
