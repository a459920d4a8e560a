/**
 * What a secondary hard-link member's path holds at every step of every
 * interleaving, and which listed paths are ever absent on the way.
 */
module Members {
  import opened Prelude
  import opened FileSystem
  import opened Entries
  import opened Delta
  import opened Receiver
  import opened SyncRun
  import opened TempWrite
  import opened LocalSync
  import opened Lockstep
  import opened Effects
  import opened Runs
  import opened FinalPasses
  import opened Contents
  import opened PartialDirs
  import opened Atomic
  import opened Names
  import Interleavings
  import Attributes

  // ---- The three stages of a member ----

  /** Before its own Unlink, between that and its Relink, and afterwards. */
  datatype Stage = Own | Gone | Joined

  predicate IsMember(job: Job, g: nat, n: nat) {
    g < |job.list.groups| && 1 <= n < |job.list.groups[g]|
  }

  function MemberPath(job: Job, g: nat, n: nat): Path
    requires IsMember(job, g, n)
  {
    job.cfg.dest + job.list.groups[g][n]
  }

  function StageOf(r: ReceiverPc, g: nat, n: nat): Stage {
    match r
    case Linking(h, k, _, _, step) =>
      if h < g || (h == g && k < n) then Own
      else if h == g && k == n then if step == Relink then Gone else Own
      else Joined
    case Stamping(_, _, _) => Joined
    case ReceiverReturned(_, _, _) => Joined
    case _ => Own
  }

  /** What a stage says about the disk: the old file, no name, or one inode with the group's first member. */
  predicate Holds(setup: Setup, fs: FS, g: nat, n: nat, stage: Stage)
    requires IsMember(setup.job, g, n)
  {
    var q := MemberPath(setup.job, g, n);
    match stage
    case Own => Stays(setup.start, fs, q)
    case Gone => q !in fs.names
    case Joined => Shares(fs, q, setup.job.cfg.dest + setup.job.list.groups[g][0])
  }

  predicate Failed(r: ReceiverPc) {
    r.ReceiverReturned? && !r.ok
  }

  predicate AtStage(setup: Setup, m: Machine, g: nat, n: nat)
    requires IsMember(setup.job, g, n)
  {
    Holds(setup, Disk(setup, m), g, n, StageOf(m.r, g, n))
  }

  // ---- A member is out of every entry's way ----

  /** The member is listed, and neither transferred nor anyone's partial file. */
  lemma MemberIsUntouchable(job: Job, g: nat, n: nat)
    requires WellFormed(job.list) && Apart(job) && IsMember(job, g, n)
    ensures Untouchable(job, MemberPath(job, g, n))
  {
    MemberIsSecondary(job.list, g, n);
    var i := EndToEnd.ListedIndex(job, job.list.groups[g][n]);
    forall k | 0 <= k < |job.list.entries|
      ensures Transfers(job.list, Entry(job, k)) || Entry(job, k).kind == Symlinked ==> MemberPath(job, g, n) != Where(job, k)
      ensures Transfers(job.list, Entry(job, k)) && job.cfg.ropts.partialDir.Some? ==> MemberPath(job, g, n) != Spot(job.cfg, Entry(job, k))
    {
      assert Where(job, i) == MemberPath(job, g, n);
      if k != i {
        PlacesDiffer(job, i, k);
      }
    }
  }

  // ---- The link pass ----

  /** Relinking another member moves neither this one nor the group's first. */
  lemma OtherRelinked(setup: Setup, fs: FS, after: FS, h: nat, k: nat, g: nat, n: nat)
    requires WellFormed(setup.job.list) && IsMember(setup.job, h, k) && IsMember(setup.job, g, n) && (h != g || k != n)
    requires Relinked(fs, after, MemberPath(setup.job, h, k))
    ensures Stays(fs, after, MemberPath(setup.job, g, n))
    ensures Holds(setup, fs, g, n, Joined) ==> Holds(setup, after, g, n, Joined)
  {
    MembersDiffer(setup.job, h, k, g, n);
    MembersDiffer(setup.job, h, k, g, 0);
    hide WellFormed;
  }

  lemma JoinedFrom(setup: Setup, fs: FS, h: nat, k: nat, g: nat, n: nat)
    requires IsMember(setup.job, g, n) && LinkedUpTo(setup.job, fs, h, k) && (g < h || (g == h && n < k))
    ensures Holds(setup, fs, g, n, Joined)
  {
  }

  lemma WhileLinking(setup: Setup, before: FS, fs: FS, h: nat, k: nat, step: LinkPhase, g: nat, n: nat)
    requires WellFormed(setup.job.list) && Valid(before) && IsMember(setup.job, g, n)
    requires LinkingOk(setup, h, k, before, fs, step) && Stays(setup.start, before, MemberPath(setup.job, g, n))
    ensures Holds(setup, fs, g, n, StageOf(Linking(h, k, State(before, NO_STATS, []), fs, step), g, n))
  {
    hide WellFormed, Valid, LinkedSoFar, LinkedUpTo, MkdirAll, Remove, Relinked, Stays;
    var q := MemberPath(setup.job, g, n);
    var here := LinkedSoFar(setup, before, h, k).value;
    var ahead := h < g || (h == g && k <= n);
    if ahead {
      HereStays(setup, before, h, k, g, n);
      StaysTwice(setup.start, before, here, q);
    } else {
      HereShares(setup, before, h, k);
      JoinedFrom(setup, here, h, if k <= GroupLength(setup, h) then k else GroupLength(setup, h), g, n);
    }
    if step != MakeParent {
      MidMember(setup, here, fs, h, k, step, g, n, ahead);
    }
  }

  /** From the parent's directories on, through the unlinking. */
  lemma MidMember(setup: Setup, here: FS, fs: FS, h: nat, k: nat, step: LinkPhase, g: nat, n: nat, ahead: bool)
    requires WellFormed(setup.job.list) && Valid(here) && IsMember(setup.job, g, n) && IsMember(setup.job, h, k)
    requires ahead == (h < g || (h == g && k <= n)) && step != MakeParent
    requires if ahead then Stays(setup.start, here, MemberPath(setup.job, g, n)) else Holds(setup, here, g, n, Joined)
    requires var made := MkdirAll(setup.job.cfg.proc, here, Parent(MemberPath(setup.job, h, k)));
      made.Ok? && (if step == Unlink then fs == made.value else Remove(setup.job.cfg.proc, made.value, MemberPath(setup.job, h, k)) == Ok(fs))
    ensures Holds(setup, fs, g, n, StageOf(Linking(h, k, State(here, NO_STATS, []), fs, step), g, n))
  {
    hide WellFormed, Valid, MkdirAll, Remove, Relinked, Stays;
    var q, member := MemberPath(setup.job, g, n), MemberPath(setup.job, h, k);
    var made := MkdirAll(setup.job.cfg.proc, here, Parent(member)).value;
    MemberIsSecondary(setup.job.list, h, k);
    MkdirRelinks(setup.job.cfg, here, member);
    MkdirStays(setup.job.cfg.proc, here, Parent(member), q);
    if ahead {
      StaysTwice(setup.start, here, made, q);
    }
    if h != g || k != n {
      OtherRelinked(setup, here, made, h, k, g, n);
      if step == Relink {
        RemoveRelinks(setup.job.cfg, made, member);
        OtherRelinked(setup, made, fs, h, k, g, n);
        if ahead {
          StaysTwice(setup.start, made, fs, q);
        }
      }
    } else if step == Relink {
      RemoveWorks(setup.job.cfg.proc, made, member);
    }
  }

  // ---- Where the sequential run alone decides the disk ----

  lemma OnCourseMember(setup: Setup, m: Machine, g: nat, n: nat)
    requires Orderly(setup) && OnCourse(setup, m.r) && !m.r.Stamping? && !m.r.ReceiverReturned?
    requires IsMember(setup.job, g, n) && MemberPath(setup.job, g, n) in setup.start.names
    ensures AtStage(setup, m, g, n)
  {
    hide Orderly, WellFormed, Apart, Valid, Untouchable, Stays, OnCourse, Holds, AtStage;
    OrderlyIs(setup);
    MemberIsUntouchable(setup.job, g, n);
    if m.r.Linking? {
      LinkingMember(setup, m, g, n);
    } else {
      if m.r.Placing? {
        PlacingStays(setup, m, MemberPath(setup.job, g, n));
      } else {
        BetweenStays(setup, m, MemberPath(setup.job, g, n));
      }
      OwnHolds(setup, m, g, n);
    }
  }

  lemma OwnHolds(setup: Setup, m: Machine, g: nat, n: nat)
    requires IsMember(setup.job, g, n) && Stays(setup.start, Disk(setup, m), MemberPath(setup.job, g, n))
    requires !m.r.Linking? && !m.r.Stamping? && !m.r.ReceiverReturned?
    ensures AtStage(setup, m, g, n)
  {
    hide Stays;
  }

  lemma BetweenStays(setup: Setup, m: Machine, q: Path)
    requires Orderly(setup) && OnCourse(setup, m.r) && Untouchable(setup.job, q)
    requires m.r.AwaitingList? || m.r.AtEntry? || m.r.Asking? || m.r.AskBlocked? || m.r.AwaitingDelta?
    ensures Stays(setup.start, Disk(setup, m), q)
  {
    OrderlyIs(setup);
    hide Orderly, WellFormed, Apart, Valid, Untouchable, Stays, After, Prepare, Transfers;
    match m.r
    case AwaitingList => StaysHere(setup.start, q);
    case AtEntry(k, _) => StaysSoFar(setup.job, setup.start, k, q);
    case Asking(k, _, _) => StaysSoFar(setup.job, setup.start, k, q);
    case AskBlocked(k, _, _) => StaysSoFar(setup.job, setup.start, k, q);
    case AwaitingDelta(k, _, _) => StaysSoFar(setup.job, setup.start, k, q);
  }

  lemma LinkingMember(setup: Setup, m: Machine, g: nat, n: nat)
    requires WellFormed(setup.job.list) && Valid(setup.start) && OnCourse(setup, m.r) && m.r.Linking?
    requires IsMember(setup.job, g, n) && Untouchable(setup.job, MemberPath(setup.job, g, n))
    ensures AtStage(setup, m, g, n)
  {
    hide WellFormed, Valid, Untouchable, Stays, After, LinkingOk, Holds, MemberPath;
    StaysSoFar(setup.job, setup.start, N(setup), MemberPath(setup.job, g, n));
    AfterIsValid(setup.job, setup.start, N(setup));
    WhileLinking(setup, m.r.st.fs, m.r.fs, m.r.g, m.r.n, m.r.step, g, n);
  }

  // ---- One step ----

  /** The write in hand fails with b bytes in the temporary file. */
  lemma AbortedMember(setup: Setup, m: Machine, b: nat, renames: bool, g: nat, n: nat)
    requires Orderly(setup) && OnCourse(setup, m.r) && m.r.Placing? && m.r.phase.Filling? && m.r.k < N(setup) && b <= |m.r.data|
    requires IsMember(setup.job, g, n) && MemberPath(setup.job, g, n) in setup.start.names && AtStage(setup, m, g, n)
    ensures Holds(setup, AbandonOrKeep(setup.job.cfg, Entry(setup.job, m.r.k), Fill(m.r.fs, m.r.phase.tmp, m.r.data[..b]), m.r.phase.tmp, renames), g, n, Own)
  {
    var q, tmp := MemberPath(setup.job, g, n), m.r.phase.tmp;
    OrderlyIs(setup);
    MemberIsUntouchable(setup.job, g, n);
    hide Orderly, WellFormed, Apart, Valid, Untouchable, Stays, Understood, MkdirAll, OpenTemp, Fill, AbandonOrKeep, Beside, After;
    PlacingStays(setup, m, q);
    InHandElsewhere(setup, m, q);
    FillLength(setup, m);
    var made := FillingBeside(setup, m, m.r.phase.n);
    var base := FillingBeside(setup, m, b);
    var filled := Fill(m.r.fs, tmp, m.r.data[..b]);
    var cfg, e := setup.job.cfg, Entry(setup.job, m.r.k);
    hide OnCourse;
    FillStays(made, m.r.fs, tmp, m.r.data[..b], q);
    AbandonStays(cfg, e, base, filled, tmp, renames, q);
    StaysTwice(m.r.fs, filled, AbandonOrKeep(cfg, e, filled, tmp, renames), q);
    StaysTwice(setup.start, m.r.fs, AbandonOrKeep(cfg, e, filled, tmp, renames), q);
  }

  lemma PlaceFailsMember(setup: Setup, m: Machine, g: nat, n: nat)
    requires Orderly(setup) && OnCourse(setup, m.r) && m.r.Placing? && m.r.k < N(setup) && PlaceStep(setup, m).ReceiverReturned?
    requires IsMember(setup.job, g, n) && MemberPath(setup.job, g, n) in setup.start.names && AtStage(setup, m, g, n)
    ensures !PlaceStep(setup, m).ok && Holds(setup, PlaceStep(setup, m).st.fs, g, n, Own)
  {
    var q := MemberPath(setup.job, g, n);
    OrderlyIs(setup);
    MemberIsUntouchable(setup.job, g, n);
    hide Orderly, WellFormed, Apart, Valid, Untouchable, Stays, PlaceStep, AbandonOrKeep, DropPartial, PartialPath;
    if m.r.phase.Filling? {
      FillLength(setup, m);
      FillingFails(setup, m);
      var made := FillingBeside(setup, m, m.r.phase.n);
      AbortedMember(setup, m, m.r.phase.n, true, g, n);
    } else {
      PlainFails(setup, m);
      InHandElsewhere(setup, m, q);
      DiskIsValid(setup, m);
      var cfg, e := setup.job.cfg, Entry(setup.job, m.r.k);
      hide OnCourse;
      DropStays(cfg, e, m.r.plan, m.r.fs, q);
      StaysTwice(setup.start, m.r.fs, DropPartial(cfg, e, m.r.plan, m.r.fs), q);
    }
  }

  lemma StampMember(setup: Setup, m: Machine, g: nat, n: nat)
    requires m.r.Stamping? && m.r.k <= N(setup) && IsMember(setup.job, g, n) && AtStage(setup, m, g, n)
    ensures var next := StampStep(setup, m);
      && (next.Stamping? || next.ReceiverReturned?)
      && Holds(setup, if next.Stamping? then next.fs else next.st.fs, g, n, Joined)
  {
    if m.r.k > 0 && Entry(setup.job, m.r.k - 1).kind == Directory {
      var e := Entry(setup.job, m.r.k - 1);
      if Attributes.ApplyPlain(m.r.fs, e, At(setup.job.cfg, e), setup.job.cfg.attrs).Ok? {
        PlainStays(m.r.fs, e, At(setup.job.cfg, e), setup.job.cfg.attrs, MemberPath(setup.job, g, n));
      }
    }
    hide Attributes.ApplyPlain;
  }

  /** A receiver step keeps the member at its stage; a step that fails leaves it as it was. */
  lemma ReceiverKeepsMember(setup: Setup, m: Machine, g: nat, n: nat)
    requires Orderly(setup) && Inv(setup, m) && ReceiverStep(setup, m).Some?
    requires IsMember(setup.job, g, n) && MemberPath(setup.job, g, n) in setup.start.names && AtStage(setup, m, g, n)
    ensures var next := ReceiverStep(setup, m).value;
      if Failed(next.r) then Holds(setup, Disk(setup, next), g, n, StageOf(m.r, g, n)) else AtStage(setup, next, g, n)
  {
    hide Orderly, OnCourse, Valid, InStep, Recorded, ReceiverStep, Holds, AtStage;
    ReceiverKeeps(setup, m);
    var next := ReceiverStep(setup, m).value;
    if !next.r.Stamping? && !next.r.ReceiverReturned? {
      OnCourseMember(setup, next, g, n);
    } else {
      FinalStepMember(setup, m, g, n);
    }
  }

  lemma FinalStepMember(setup: Setup, m: Machine, g: nat, n: nat)
    requires Orderly(setup) && OnCourse(setup, m.r) && ReceiverStep(setup, m).Some?
    requires ReceiverStep(setup, m).value.r.Stamping? || ReceiverStep(setup, m).value.r.ReceiverReturned?
    requires IsMember(setup.job, g, n) && MemberPath(setup.job, g, n) in setup.start.names && AtStage(setup, m, g, n)
    ensures var next := ReceiverStep(setup, m).value;
      if Failed(next.r) then Holds(setup, Disk(setup, next), g, n, StageOf(m.r, g, n)) else AtStage(setup, next, g, n)
  {
    hide Orderly, OnCourse, Holds, ReceiverStep, PlaceStep, StampStep, StageOf, AtStage;
    if m.r.Placing? {
      PlacingIsReached(setup, m);
      StepIsPlace(setup, m);
      PlaceFailsMember(setup, m, g, n);
      OwnWhilePlacing(setup, m, g, n);
    } else if m.r.Stamping? {
      StepIsStamp(setup, m);
      StampMember(setup, m, g, n);
      JoinedAtTheEnd(setup, m, g, n);
      JoinedAtTheEnd(setup, ReceiverStep(setup, m).value, g, n);
    } else {
      OrderlyIs(setup);
      LeavesMember(setup, m, g, n);
    }
  }

  lemma OwnWhilePlacing(setup: Setup, m: Machine, g: nat, n: nat)
    ensures m.r.Placing? ==> StageOf(m.r, g, n) == Own
  {
  }

  lemma JoinedAtTheEnd(setup: Setup, m: Machine, g: nat, n: nat)
    requires IsMember(setup.job, g, n)
    ensures m.r.Stamping? || m.r.ReceiverReturned? ==>
      StageOf(m.r, g, n) == Joined && (AtStage(setup, m, g, n) <==> Holds(setup, Disk(setup, m), g, n, Joined))
  {
    hide Holds;
  }

  /** The other steps to the directory pass or the end leave the disk alone. */
  lemma LeavesMember(setup: Setup, m: Machine, g: nat, n: nat)
    requires !setup.job.cfg.ropts.dryRun && ReceiverStep(setup, m).Some? && !m.r.Placing? && !m.r.Stamping?
    requires ReceiverStep(setup, m).value.r.Stamping? || ReceiverStep(setup, m).value.r.ReceiverReturned?
    requires IsMember(setup.job, g, n) && AtStage(setup, m, g, n)
    ensures var next := ReceiverStep(setup, m).value;
      if Failed(next.r) then Holds(setup, Disk(setup, next), g, n, StageOf(m.r, g, n)) else AtStage(setup, next, g, n)
  {
    hide Holds, ReceiverStep;
    OthersFail(setup, m);
    var next := ReceiverStep(setup, m).value;
    if next.r.Stamping? {
      OnlyPastTheEnd(setup, m);
      hide StageOf;
      PastTheEnd(m.r, g, n, |setup.job.list.groups|);
      PastTheEnd(next.r, g, n, |setup.job.list.groups|);
    }
  }

  lemma PastTheEnd(r: ReceiverPc, g: nat, n: nat, end: nat)
    requires r.Stamping? || (r.Linking? && r.g >= end)
    ensures g < end ==> StageOf(r, g, n) == Joined
  {
  }

  /** The link pass is left for the directory pass only when every group is done. */
  lemma OnlyPastTheEnd(setup: Setup, m: Machine)
    requires ReceiverStep(setup, m).Some? && ReceiverStep(setup, m).value.r.Stamping? && m.r.Linking?
    ensures m.r.g >= |setup.job.list.groups|
  {
    hide MkdirAll, Remove, LinkTo;
  }

  lemma FaultKeepsMember(setup: Setup, m: Machine, extra: nat, renames: bool, g: nat, n: nat)
    requires Orderly(setup) && Inv(setup, m) && ReceiverFault(setup, m, extra, renames).Some?
    requires IsMember(setup.job, g, n) && MemberPath(setup.job, g, n) in setup.start.names && AtStage(setup, m, g, n)
    ensures var next := ReceiverFault(setup, m, extra, renames).value;
      Failed(next.r) && Holds(setup, Disk(setup, next), g, n, StageOf(m.r, g, n))
  {
    hide Orderly, OnCourse, Valid, InStep, Recorded, Holds, AbandonOrKeep, Fill;
    if m.r.Placing? && m.r.phase.Filling? {
      PlacingIsReached(setup, m);
      FaultIsAbort(setup, m, extra, renames);
      AbortedMember(setup, m, if m.r.phase.n + extra <= |m.r.data| then m.r.phase.n + extra else |m.r.data|, renames, g, n);
    } else {
      FaultIsFail(setup, m, extra, renames);
    }
  }

  /** One scheduling choice. */
  lemma NextKeepsMember(setup: Setup, m: Machine, c: Choice, g: nat, n: nat)
    requires Orderly(setup) && Inv(setup, m) && !Failed(m.r)
    requires IsMember(setup.job, g, n) && MemberPath(setup.job, g, n) in setup.start.names && AtStage(setup, m, g, n)
    ensures var next := Next(setup, m, c);
      if Failed(next.r) then Holds(setup, Disk(setup, next), g, n, StageOf(m.r, g, n)) else AtStage(setup, next, g, n)
  {
    hide Orderly, Inv, SenderStep, ReceiverStep, SenderFault, ReceiverFault, Holds;
    SenderLeavesReceiver(setup, m);
    match c {
      case RunReceiver => if ReceiverStep(setup, m).Some? { ReceiverKeepsMember(setup, m, g, n); }
      case BreakReceiver(extra, renames) => if ReceiverFault(setup, m, extra, renames).Some? { FaultKeepsMember(setup, m, extra, renames, g, n); }
      case _ =>
    }
  }

  /** A receiver that has returned stays as it is. */
  lemma ReturnedStays(setup: Setup, m: Machine, c: Choice)
    requires m.r.ReceiverReturned?
    ensures Next(setup, m, c).r == m.r
  {
    ReturnedRests(setup, m);
    SenderLeavesReceiver(setup, m);
    hide SenderStep, ReceiverStep, SenderFault;
  }

  /**
   * Secondary hard-link members, at every step of every interleaving: up to
   * its own unlinking a member's path keeps the inode, kind and bytes it
   * started with, then it names nothing until it is linked again, and from
   * there on it is one file with the group's first member. A receiver that
   * failed, at whatever point, leaves the path at the stage of the step that
   * failed: t is how many choices came before that one.
   */
  lemma {:induction false} MembersInEveryInterleaving(setup: Setup, schedule: seq<Choice>, g: nat, n: nat) returns (t: nat)
    requires Orderly(setup) && IsMember(setup.job, g, n) && MemberPath(setup.job, g, n) in setup.start.names
    ensures t <= |schedule| && !Failed(Exec(setup, schedule[..t]).r)
    ensures Holds(setup, Disk(setup, Exec(setup, schedule)), g, n, StageOf(Exec(setup, schedule[..t]).r, g, n))
    ensures if Failed(Exec(setup, schedule).r) then t < |schedule| && Failed(Exec(setup, schedule[..t + 1]).r) else t == |schedule|
  {
    hide Orderly, Inv, Next, Holds, Exec, Disk, StageOf, WellFormed, Valid, Apart, MemberPath;
    OrderlyIs(setup);
    assert schedule[..|schedule|] == schedule;
    if schedule == [] {
      t := 0;
      StartsWhole(setup, g, n);
    } else {
      var before := schedule[..|schedule| - 1];
      var c := schedule[|schedule| - 1];
      var m := Exec(setup, before);
      LastChoice(setup, schedule);
      t := MembersInEveryInterleaving(setup, before, g, n);
      assert before[..t] == schedule[..t] && (t < |before| ==> before[..t + 1] == schedule[..t + 1]);
      if Failed(m.r) {
        ReturnedStays(setup, m, c);
        SameReceiverSameDisk(setup, m, Exec(setup, schedule));
      } else {
        EveryInterleaving(setup, before);
        assert before[..t] == before;
        NextKeepsMember(setup, m, c, g, n);
        if !Failed(Exec(setup, schedule).r) {
          t := |schedule|;
        }
      }
    }
  }

  lemma LastChoice(setup: Setup, schedule: seq<Choice>)
    requires schedule != []
    ensures Exec(setup, schedule) == Next(setup, Exec(setup, schedule[..|schedule| - 1]), schedule[|schedule| - 1])
  {
    hide Next;
  }

  lemma SameReceiverSameDisk(setup: Setup, m: Machine, next: Machine)
    requires next.r == m.r
    ensures Disk(setup, next) == Disk(setup, m)
  {
  }

  lemma StartsWhole(setup: Setup, g: nat, n: nat)
    requires IsMember(setup.job, g, n)
    ensures AtStage(setup, Exec(setup, []), g, n) && !Failed(Exec(setup, []).r)
  {
    assert Exec(setup, []) == Init(setup);
  }

  // ---- Which listed files are ever absent ----

  /** One choice moves a member at most one stage on. */
  lemma NextStage(setup: Setup, m: Machine, c: Choice, g: nat, n: nat)
    requires !setup.job.cfg.ropts.dryRun && IsMember(setup.job, g, n) && !Failed(Next(setup, m, c).r)
    ensures StageOf(m.r, g, n) == Own ==> StageOf(Next(setup, m, c).r, g, n) != Joined
  {
    hide SenderStep, ReceiverStep, SenderFault, ReceiverFault, Failed;
    SenderLeavesReceiver(setup, m);
    match c {
      case RunReceiver => if ReceiverStep(setup, m).Some? { ReceiverStage(setup, m, g, n); }
      case BreakReceiver(extra, renames) => FaultFails(setup, m, extra, renames);
      case _ =>
    }
  }

  lemma FaultFails(setup: Setup, m: Machine, extra: nat, renames: bool)
    ensures ReceiverFault(setup, m, extra, renames).Some? ==> Failed(ReceiverFault(setup, m, extra, renames).value.r)
  {
    hide AbandonOrKeep, Fill;
  }

  lemma ReceiverStage(setup: Setup, m: Machine, g: nat, n: nat)
    requires !setup.job.cfg.ropts.dryRun && IsMember(setup.job, g, n) && ReceiverStep(setup, m).Some? && !Failed(ReceiverStep(setup, m).value.r)
    ensures StageOf(m.r, g, n) == Own ==> StageOf(ReceiverStep(setup, m).value.r, g, n) != Joined
  {
    if m.r.Placing? {
      if m.r.k < N(setup) {
        PlacingStage(setup, m, g, n);
      }
      hide PlaceStep, StageOf;
    } else if m.r.Stamping? {
      hide StampStep;
    } else {
      hide EntryStep, DeltaStep, MkdirAll, Remove, LinkTo, StampStep;
      OthersFail(setup, m);
      hide PlaceStep;
    }
  }

  lemma PlacingStage(setup: Setup, m: Machine, g: nat, n: nat)
    requires m.r.Placing? && m.r.k < N(setup) && !Failed(PlaceStep(setup, m))
    ensures StageOf(PlaceStep(setup, m), g, n) == Own
  {
    hide MkdirAll, OpenTemp, Fill, RenameOnto, Attributes.ApplyAttributes, DropPartial, AbandonOrKeep, Finished, MustWrite;
  }

  /** A receiver that has got past a member's relinking was at that step before. */
  lemma {:induction false} PassedThrough(setup: Setup, schedule: seq<Choice>, g: nat, n: nat) returns (t: nat)
    requires !setup.job.cfg.ropts.dryRun && IsMember(setup.job, g, n)
    requires !Failed(Exec(setup, schedule).r) && StageOf(Exec(setup, schedule).r, g, n) != Own
    ensures t <= |schedule| && !Failed(Exec(setup, schedule[..t]).r) && StageOf(Exec(setup, schedule[..t]).r, g, n) == Gone
  {
    hide Next;
    assert schedule[..|schedule|] == schedule;
    if StageOf(Exec(setup, schedule).r, g, n) == Gone {
      t := |schedule|;
    } else {
      var before := schedule[..|schedule| - 1];
      var c := schedule[|schedule| - 1];
      NextStage(setup, Exec(setup, before), c, g, n);
      if Failed(Exec(setup, before).r) {
        ReturnedStays(setup, Exec(setup, before), c);
      }
      t := PassedThrough(setup, before, g, n);
      assert before[..t] == schedule[..t];
    }
  }
}
