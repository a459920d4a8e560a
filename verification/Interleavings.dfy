/** What holds of every interleaving of syncLocal's two sides, whatever fails and whenever. */
module Interleavings {
  import opened Prelude
  import opened FileSystem
  import opened Entries
  import opened Delta
  import opened Receiver
  import opened SyncRun
  import opened TempWrite
  import opened LocalSync
  import opened Lockstep
  import opened Effects
  import opened Runs
  import opened EndToEnd
  import opened Idempotence
  import opened Twins
  import Replay
  import Wire

  // ---- Frames ----

  /** The frame a receiver in this position is about to read, and the only one it accepts. */
  predicate Awaited(setup: Setup, r: ReceiverPc, msg: Message) {
    match r
    case AwaitingList => msg == FileListMsg(setup.job.list)
    case AskBlocked(k, _, plan) => k < N(setup) && msg.DeltaMsg? && msg.path == Entry(setup.job, k).path && Answer(setup, k, plan) == Ok(msg)
    case AwaitingDelta(k, _, plan) => k < N(setup) && msg.DeltaMsg? && msg.path == Entry(setup.job, k).path && Answer(setup, k, plan) == Ok(msg)
    case _ => false
  }

  /**
   * At most one frame is in flight; a frame on its way to a receiver that has
   * not failed is of the type and for the path it waits for, and a signature
   * on its way to the sender is for the entry the sender selects next.
   */
  lemma FramesAreExpected(setup: Setup, schedule: seq<Choice>)
    requires Valid(setup.start)
    ensures var m := Exec(setup, schedule);
      && (m.toR.None? || m.toS.None?)
      && (m.toR.Some? && !(m.r.ReceiverReturned? && !m.r.ok) ==> Awaited(setup, m.r, m.toR.value))
      && (m.toS.Some? && !(m.r.ReceiverReturned? && !m.r.ok) ==>
            && m.toS.value.SignatureMsg? && m.r.AskBlocked? && m.r.k < N(setup)
            && m.toS.value.path == Entry(setup.job, m.r.k).path
            && SenderHeadsFor(setup, m.s, m.r.k))
  {
    EveryInterleaving(setup, schedule);
    hide Exec, Valid, OnCourse, Recorded, SenderHeadsFor, Transfers, Wire.Encode, ReplyOps;
  }

  // ---- Deadlock, and failures reaching the other side ----

  /** As long as one side has not returned, some side can take a step. */
  lemma NoDeadlock(setup: Setup, m: Machine)
    requires Inv(setup, m)
    ensures BothReturned(m) || SenderStep(setup, m).Some? || ReceiverStep(setup, m).Some?
  {
    hide Valid, Recorded, OnCourse, SenderHeadsFor, Reply, Transfers, PlaceStep, LinkStep, StampStep, EntryStep, DeltaStep;
  }

  /** Once one side has returned, the other is never blocked: closing the pipes releases it. */
  lemma ClosingReleases(setup: Setup, m: Machine)
    ensures m.r.ReceiverReturned? && !m.s.SenderReturned? ==> SenderStep(setup, m).Some?
    ensures m.s.SenderReturned? && !m.r.ReceiverReturned? ==> ReceiverStep(setup, m).Some?
  {
    hide PlaceStep, LinkStep, StampStep, EntryStep, DeltaStep, Reply, Transfers;
  }

  // ---- Every schedule ends ----

  function Gap(n: nat, i: nat): nat {
    if i < n then n - i else 0
  }

  function SenderRank(setup: Setup, s: SenderPc): nat {
    match s
    case SendingList => 4 * N(setup) + 4
    case Flushing(next, _) => 4 * Gap(N(setup), next) + 3
    case Loop(i) => 4 * Gap(N(setup), i) + 2
    case Awaiting(i) => 4 * Gap(N(setup), i) + 1
    case Answering(i, _) => 4 * Gap(N(setup), i)
    case SenderReturned(_) => 0
  }

  function LinkWork(groups: seq<Group>, g: nat): nat
    decreases |groups| - g
  {
    if g >= |groups| then 0 else 3 * |groups[g]| + 4 + LinkWork(groups, g + 1)
  }

  function LinkRank(groups: seq<Group>, g: nat, n: nat, step: LinkPhase): nat {
    if g >= |groups| then 0
    else 3 * Gap(|groups[g]|, n) + (match step case MakeParent => 2 case Unlink => 1 case Relink => 0) + 1 + LinkWork(groups, g + 1)
  }

  function EntryRank(setup: Setup, k: nat, done: nat): int {
    8 * Gap(N(setup), k) - done + N(setup) + 5 + LinkRank(setup.job.list.groups, 0, 1, MakeParent)
  }

  function ReceiverRank(setup: Setup, r: ReceiverPc): int {
    match r
    case AwaitingList => EntryRank(setup, 0, 0) + 1
    case AtEntry(k, _) => EntryRank(setup, k, 0)
    case Asking(k, _, _) => EntryRank(setup, k, 1)
    case AskBlocked(k, _, _) => EntryRank(setup, k, 2)
    case AwaitingDelta(k, _, _) => EntryRank(setup, k, 3)
    case Placing(k, _, _, _, _, _, phase) =>
      EntryRank(setup, k, match phase case Making => 4 case Opening => 5 case Filling(_, _) => 6 case Written => 7)
    case Linking(g, n, _, _, step) => LinkRank(setup.job.list.groups, g, n, step) + N(setup) + 3
    case Stamping(k, _, _) => k + 1
    case ReceiverReturned(_, _, _) => 0
  }

  function BytesToFill(r: ReceiverPc): nat {
    if r.Placing? && r.phase.Filling? then Gap(|r.data|, r.phase.n) else 0
  }

  /** Steps left, but for the chunks of the file being written. */
  function Rank(setup: Setup, m: Machine): int {
    SenderRank(setup, m.s) + ReceiverRank(setup, m.r)
  }

  predicate Below(setup: Setup, next: Machine, m: Machine) {
    || 0 <= Rank(setup, next) < Rank(setup, m)
    || (0 <= Rank(setup, next) == Rank(setup, m) && BytesToFill(next.r) < BytesToFill(m.r))
  }

  lemma RankIsNatural(setup: Setup, r: ReceiverPc)
    requires OnCourse(setup, r)
    ensures 0 <= ReceiverRank(setup, r)
    ensures !r.ReceiverReturned? ==> 0 < ReceiverRank(setup, r)
  {
    hide Prepare, Reply, ReadDelta, NewData, PhaseOk, Transfers, After, LinkingOk, Passes, Run;
  }

  lemma SenderDescends(setup: Setup, m: Machine)
    requires Inv(setup, m) && SenderStep(setup, m).Some?
    ensures Below(setup, SenderStep(setup, m).value, m)
  {
    hide Valid, OnCourse, InStep, Recorded, Reply, Transfers, ReceiverRank;
    RankIsNatural(setup, m.r);
  }

  lemma FaultDescends(setup: Setup, m: Machine, extra: nat, renames: bool)
    requires Inv(setup, m)
    ensures SenderFault(m).Some? ==> Below(setup, SenderFault(m).value, m)
    ensures ReceiverFault(setup, m, extra, renames).Some? ==> Below(setup, ReceiverFault(setup, m, extra, renames).value, m)
  {
    hide Valid, OnCourse, InStep, Recorded, EntryRank, LinkRank, AbandonOrKeep, Fill, ReceiverRank;
    RankIsNatural(setup, m.r);
    if ReceiverFault(setup, m, extra, renames).Some? {
      ReturnedRank(setup, ReceiverFault(setup, m, extra, renames).value.r);
    }
  }

  lemma ReturnedRank(setup: Setup, r: ReceiverPc)
    ensures r.ReceiverReturned? ==> ReceiverRank(setup, r) == 0
  {
  }

  lemma PlaceDescends(setup: Setup, m: Machine)
    requires m.r.Placing? && m.r.k < N(setup)
    ensures var next := PlaceStep(setup, m);
      || next.ReceiverReturned? || ReceiverRank(setup, next) < ReceiverRank(setup, m.r)
      || (ReceiverRank(setup, next) == ReceiverRank(setup, m.r) && BytesToFill(next) < BytesToFill(m.r))
  {
    hide MkdirAll, OpenTemp, Fill, RenameOnto, Attributes.ApplyAttributes, DropPartial, AbandonOrKeep, Finished, MustWrite, LinkRank;
  }

  lemma LinkDescends(setup: Setup, m: Machine)
    requires m.r.Linking?
    ensures var next := LinkStep(setup, m); next.ReceiverReturned? || ReceiverRank(setup, next) < ReceiverRank(setup, m.r)
  {
    hide MkdirAll, Remove, LinkTo;
  }

  /** One receiver step, from r to next: it returned, or fewer steps are left, or fewer bytes of the file in hand. */
  predicate Lower(setup: Setup, next: ReceiverPc, r: ReceiverPc) {
    || next.ReceiverReturned? || ReceiverRank(setup, next) < ReceiverRank(setup, r)
    || (ReceiverRank(setup, next) == ReceiverRank(setup, r) && BytesToFill(next) < BytesToFill(r))
  }

  lemma ReceiverDescends(setup: Setup, m: Machine)
    requires Inv(setup, m) && ReceiverStep(setup, m).Some?
    ensures Below(setup, ReceiverStep(setup, m).value, m)
  {
    var next := ReceiverStep(setup, m).value;
    ReceiverKeeps(setup, m);
    RankIsNatural(setup, m.r);
    RankIsNatural(setup, next.r);
    ReturnedRank(setup, next.r);
    ReceiverLowers(setup, m);
    hide Inv, OnCourse, ReceiverRank, BytesToFill, SenderRank;
    assert next.s == m.s && !m.r.ReceiverReturned? by {
      OnlyTheReceiver(setup, m);
    }
    hide ReceiverStep;
  }

  lemma OnlyTheReceiver(setup: Setup, m: Machine)
    requires ReceiverStep(setup, m).Some?
    ensures ReceiverStep(setup, m).value.s == m.s && !m.r.ReceiverReturned?
  {
    hide PlaceStep, LinkStep, StampStep, EntryStep, DeltaStep;
  }

  lemma ReceiverLowers(setup: Setup, m: Machine)
    requires ReceiverStep(setup, m).Some?
    ensures Lower(setup, ReceiverStep(setup, m).value.r, m.r)
  {
    hide Lower, ReceiverStep;
    match m.r {
      case AwaitingList => WaitingLowers(setup, m);
      case AtEntry(_, _) => EntryLowers(setup, m);
      case Asking(_, _, _) => WaitingLowers(setup, m);
      case AskBlocked(_, _, _) => WaitingLowers(setup, m);
      case AwaitingDelta(_, _, _) => DeltaLowers(setup, m);
      case Placing(_, _, _, _, _, _, _) => PlaceLowers(setup, m);
      case Linking(_, _, _, _, _) => LinkLowers(setup, m);
      case Stamping(_, _, _) => StampLowers(setup, m);
      case ReceiverReturned(_, _, _) => OnlyTheReceiver(setup, m);
    }
  }

  lemma WaitingLowers(setup: Setup, m: Machine)
    requires ReceiverStep(setup, m).Some? && (m.r.AwaitingList? || m.r.Asking? || m.r.AskBlocked?)
    ensures Lower(setup, ReceiverStep(setup, m).value.r, m.r)
  {
    hide LinkRank;
  }

  lemma EntryLowers(setup: Setup, m: Machine)
    requires ReceiverStep(setup, m).Some? && m.r.AtEntry?
    ensures Lower(setup, ReceiverStep(setup, m).value.r, m.r)
  {
    hide EntryStep;
    if m.r.k < N(setup) {
      EntryDescends(setup, m);
      hide EntryRank;
    }
    hide LinkRank;
  }

  lemma DeltaLowers(setup: Setup, m: Machine)
    requires ReceiverStep(setup, m).Some? && m.r.AwaitingDelta?
    ensures Lower(setup, ReceiverStep(setup, m).value.r, m.r)
  {
    hide DeltaStep;
    if m.r.k < N(setup) && m.toR.Some? {
      DeltaDescends(setup, m, m.toR.value);
    }
    hide ReceiverRank;
  }

  lemma PlaceLowers(setup: Setup, m: Machine)
    requires ReceiverStep(setup, m).Some? && m.r.Placing?
    ensures Lower(setup, ReceiverStep(setup, m).value.r, m.r)
  {
    hide PlaceStep;
    if m.r.k < N(setup) {
      PlaceDescends(setup, m);
    }
    hide ReceiverRank;
  }

  lemma LinkLowers(setup: Setup, m: Machine)
    requires ReceiverStep(setup, m).Some? && m.r.Linking?
    ensures Lower(setup, ReceiverStep(setup, m).value.r, m.r)
  {
    LinkDescends(setup, m);
    hide ReceiverRank, LinkStep;
  }

  lemma StampLowers(setup: Setup, m: Machine)
    requires ReceiverStep(setup, m).Some? && m.r.Stamping?
    ensures Lower(setup, ReceiverStep(setup, m).value.r, m.r)
  {
    hide Attributes.ApplyAttributes;
  }

  lemma EntryDescends(setup: Setup, m: Machine)
    requires m.r.AtEntry? && m.r.k < N(setup)
    ensures var next := EntryStep(setup, m); next.ReceiverReturned? || ReceiverRank(setup, next) < ReceiverRank(setup, m.r)
  {
    hide ReceiveLocal, Prepare, Transfers, LinkRank;
  }

  lemma DeltaDescends(setup: Setup, m: Machine, msg: Message)
    requires m.r.AwaitingDelta? && m.r.k < N(setup)
    ensures var next := DeltaStep(setup, m, msg); next.ReceiverReturned? || ReceiverRank(setup, next) < ReceiverRank(setup, m.r)
  {
    hide ReadDelta, NewData, Finished, LinkRank;
  }

  /** A choice that changes anything is a step downwards. */
  lemma StepDescends(setup: Setup, m: Machine, c: Choice)
    requires Inv(setup, m)
    ensures Next(setup, m, c) == m || Below(setup, Next(setup, m, c), m)
  {
    hide Inv, SenderStep, ReceiverStep, SenderFault, ReceiverFault, Below;
    match c {
      case RunSender => if SenderStep(setup, m).Some? { SenderDescends(setup, m); }
      case RunReceiver => if ReceiverStep(setup, m).Some? { ReceiverDescends(setup, m); }
      case BreakSender => FaultDescends(setup, m, 0, true);
      case BreakReceiver(extra, renames) => FaultDescends(setup, m, extra, renames);
    }
  }

  /** The scheduler's choice, or any side that can run when that choice is blocked. */
  function Effective(setup: Setup, m: Machine, c: Choice): Choice {
    if Next(setup, m, c) != m then c
    else if SenderStep(setup, m).Some? then RunSender
    else RunReceiver
  }

  lemma EffectiveDescends(setup: Setup, m: Machine, c: Choice)
    requires Inv(setup, m) && !BothReturned(m)
    ensures Below(setup, Next(setup, m, Effective(setup, m, c)), m)
    ensures Inv(setup, Next(setup, m, Effective(setup, m, c)))
  {
    NoDeadlock(setup, m);
    NextKeeps(setup, m, Effective(setup, m, c));
    StepDescends(setup, m, c);
    if SenderStep(setup, m).Some? {
      SenderDescends(setup, m);
    }
    if ReceiverStep(setup, m).Some? {
      ReceiverDescends(setup, m);
    }
    hide Inv, SenderStep, ReceiverStep, SenderFault, ReceiverFault, Below;
  }

  /** What is left to run under a scheduler that decides, step by step, whom to run and what to break. */
  ghost function Completion(setup: Setup, m: Machine, pick: Machine -> Choice): (rest: seq<Choice>)
    requires Inv(setup, m)
    ensures BothReturned(From(setup, m, rest))
    decreases Rank(setup, m), BytesToFill(m.r)
  {
    if BothReturned(m) then []
    else
      EffectiveDescends(setup, m, pick(m));
      RankIsNatural(setup, m.r);
      var c := Effective(setup, m, pick(m));
      [c] + Completion(setup, Next(setup, m, c), pick)
  }

  function From(setup: Setup, m: Machine, schedule: seq<Choice>): Machine
    decreases |schedule|
  {
    if schedule == [] then m else From(setup, Next(setup, m, schedule[0]), schedule[1..])
  }

  lemma {:induction false} FromIsExec(setup: Setup, done: seq<Choice>, rest: seq<Choice>)
    ensures Exec(setup, done + rest) == From(setup, Exec(setup, done), rest)
    decreases |rest|
  {
    hide Next;
    if rest == [] {
      assert done + rest == done;
    } else {
      var longer := done + [rest[0]];
      assert longer + rest[1..] == done + rest && longer[..|longer| - 1] == done;
      FromIsExec(setup, longer, rest[1..]);
    }
  }

  /** Whatever has happened so far and whoever schedules the rest, both sides return. */
  lemma EveryScheduleEnds(setup: Setup, done: seq<Choice>, pick: Machine -> Choice) returns (rest: seq<Choice>)
    requires Valid(setup.start)
    ensures BothReturned(Exec(setup, done + rest))
    ensures Inv(setup, Exec(setup, done)) && rest == Completion(setup, Exec(setup, done), pick)
  {
    hide Inv;
    EveryInterleaving(setup, done);
    rest := Completion(setup, Exec(setup, done), pick);
    FromIsExec(setup, done, rest);
  }

  // ---- Both nil: the sequential run happened ----

  lemma ReturnedNil(setup: Setup, m: Machine)
    requires Inv(setup, m) && m.r.ReceiverReturned? && m.r.ok && m.s.SenderReturned?
    ensures Run(setup.job, setup.start).Ok? && Run(setup.job, setup.start).value.st == m.r.st
    ensures Run(setup.job, setup.start).value.delivered == m.recorded
  {
    hide Valid, After, Passes;
    NothingAdded(m.recorded);
    NothingAdded(DeliveredBy(setup, N(setup)));
  }

  /**
   * If both sides return nil, in any interleaving, the disk, the statistics
   * and the lines are those of the one sequential run, and the batch file
   * holds exactly what that run delivers.
   */
  lemma SyncLocalIsRun(setup: Setup, schedule: seq<Choice>)
    requires Valid(setup.start) && BothReturned(Exec(setup, schedule)) && Outcome(Exec(setup, schedule))
    ensures Run(setup.job, setup.start).Ok? && Run(setup.job, setup.start).value.st == Exec(setup, schedule).r.st
    ensures Run(setup.job, setup.start).value.delivered == Exec(setup, schedule).recorded
  {
    hide Exec, Inv, Run;
    EveryInterleaving(setup, schedule);
    ReturnedNil(setup, Exec(setup, schedule));
  }

  /** End to end, over every interleaving: both nil means the source's bytes are in place. */
  lemma SourceArrivesInEveryInterleaving(setup: Setup, schedule: seq<Choice>, i: nat)
    requires BothReturned(Exec(setup, schedule)) && Outcome(Exec(setup, schedule))
    requires Sound(setup.job, setup.start) && Honest(setup.job, setup.start) && !setup.job.cfg.ropts.AppendMode()
    requires i < N(setup) && Transfers(setup.job.list, Entry(setup.job, i))
    ensures Entry(setup.job, i).path in setup.job.src
    ensures ContentAt(Exec(setup, schedule).r.st.fs, Where(setup.job, i)) == Some(setup.job.src[Entry(setup.job, i).path])
  {
    hide Exec, Run;
    SyncLocalIsRun(setup, schedule);
    SourceArrives(setup.job, setup.start, i);
    FinalIsRun(setup.job, setup.start);
  }

  lemma FinalIsRun(job: Job, start: FS)
    requires Run(job, start).Ok?
    ensures Final(job, start) == Run(job, start).value.st.fs
  {
  }

  /** And nothing the list does not name has changed. */
  lemma OthersKeptInEveryInterleaving(setup: Setup, schedule: seq<Choice>, q: Path)
    requires BothReturned(Exec(setup, schedule)) && Outcome(Exec(setup, schedule)) && Sound(setup.job, setup.start)
    requires q in setup.start.names && forall i :: 0 <= i < N(setup) && Acted(setup.job, i) ==> q != Where(setup.job, i)
    ensures ShapeAt(Exec(setup, schedule).r.st.fs, q) == ShapeAt(setup.start, q)
  {
    hide Exec, Run;
    SyncLocalIsRun(setup, schedule);
    UnlistedUnchanged(setup.job, setup.start, q);
    FinalIsRun(setup.job, setup.start);
  }

  /** What a local --write-batch run recorded, in any interleaving, replays on a look-alike to a twin of its tree. */
  lemma RecordedBatchReplays(setup: Setup, schedule: seq<Choice>, next: Job, b: FS)
    requires Valid(setup.start) && BothReturned(Exec(setup, schedule)) && Outcome(Exec(setup, schedule))
    requires Replay.Alike(setup.job, next) && Twin(setup.start, b)
    ensures Replay.ReceiveAll(next.cfg, Exec(setup, schedule).recorded, b) == Ok(Final(next, b))
    ensures Twin(Exec(setup, schedule).r.st.fs, Final(next, b))
  {
    hide Exec, Run, Twin, Replay.ReceiveAll, Replay.Alike;
    SyncLocalIsRun(setup, schedule);
    Replay.BatchReplay(setup.job, next, setup.start, b);
    FinalIsRun(setup.job, setup.start);
  }

  // ---- Without failures the interleaving decides nothing ----

  ghost predicate TempFree(setup: Setup) {
    FindsNames(setup.job.cfg.proc, setup.temp)
  }

  predicate Faultless(schedule: seq<Choice>) {
    forall i :: 0 <= i < |schedule| ==> schedule[i].RunSender? || schedule[i].RunReceiver?
  }

  predicate NobodyFailed(m: Machine) {
    !(m.s.SenderReturned? && !m.s.ok) && !(m.r.ReceiverReturned? && !m.r.ok)
  }

  lemma AllSucceed(setup: Setup, k: nat)
    requires Run(setup.job, setup.start).Ok? && k <= N(setup)
    ensures After(setup.job, setup.start, k).Ok?
  {
    hide SyncEntry, Passes, After;
    EarlierSucceeds(setup.job, setup.start, k, N(setup));
  }

  /** Every part of a transfer whose entry succeeds succeeds. */
  lemma PartsSucceed(setup: Setup, k: nat, plan: Plan)
    requires k < N(setup) && After(setup.job, setup.start, k).Ok? && After(setup.job, setup.start, k + 1).Ok?
    requires Planned(setup, k, plan)
    ensures Answer(setup, k, plan).Ok?
    ensures ReadDelta(setup.job.cfg, Entry(setup.job, k), Answer(setup, k, plan).value).Ok?
    ensures NewData(plan, ReadDelta(setup.job.cfg, Entry(setup.job, k), Answer(setup, k, plan).value).value).Ok?
  {
    hide Reply, ReadDelta, NewData, Commit, Transfers, Prepare;
  }

  lemma SenderSucceeds(setup: Setup, m: Machine)
    requires Inv(setup, m) && NobodyFailed(m) && Run(setup.job, setup.start).Ok? && SenderStep(setup, m).Some?
    ensures NobodyFailed(SenderStep(setup, m).value)
  {
    hide Valid, Recorded, After, Run, Transfers, Prepare, Reply;
    if m.s.Awaiting? && m.toS.Some? {
      AllSucceed(setup, m.r.k);
      AllSucceed(setup, m.r.k + 1);
      PartsSucceed(setup, m.r.k, m.r.plan);
    }
  }

  lemma EntrySucceeds(setup: Setup, m: Machine)
    requires m.r.AtEntry? && m.r.k < N(setup) && OnCourse(setup, m.r) && Run(setup.job, setup.start).Ok?
    ensures !EntryStep(setup, m).ReceiverReturned?
  {
    AllSucceed(setup, m.r.k + 1);
    hide Run, ReceiveLocal, Prepare, Reply, TakeDelta, Transfers;
  }

  lemma DeltaSucceeds(setup: Setup, m: Machine)
    requires m.r.AwaitingDelta? && m.r.k < N(setup) && OnCourse(setup, m.r) && Run(setup.job, setup.start).Ok?
    requires Answer(setup, m.r.k, m.r.plan).Ok?
    ensures !DeltaStep(setup, m, Answer(setup, m.r.k, m.r.plan).value).ReceiverReturned?
  {
    AllSucceed(setup, m.r.k + 1);
    PartsSucceed(setup, m.r.k, m.r.plan);
    hide Run, After, Prepare, Reply, ReadDelta, NewData, Transfers, Finished;
  }

  lemma CommitSucceeds(setup: Setup, m: Machine)
    requires m.r.Placing? && m.r.k < N(setup) && OnCourse(setup, m.r) && Run(setup.job, setup.start).Ok?
    ensures Commit(setup.job.cfg, Entry(setup.job, m.r.k), m.r.plan, m.r.data, m.r.st.fs).Ok?
  {
    AllSucceed(setup, m.r.k + 1);
    hide Run, Prepare, Reply, ReadDelta, NewData, Commit, PhaseOk;
  }

  lemma WritingSucceeds(setup: Setup, k: nat, st: State, plan: Plan, ops: seq<Op>, data: Bytes)
    requires Understood(setup, k, st, plan, ops, data) && MustWrite(plan, data)
    requires Commit(setup.job.cfg, Entry(setup.job, k), plan, data, st.fs).Ok?
    ensures var proc, p := setup.job.cfg.proc, At(setup.job.cfg, Entry(setup.job, k));
      var made := MkdirAll(proc, st.fs, Parent(p));
      made.Ok? && Install(proc, made.value, p, data).Ok? && p != [] && IsDir(made.value, Parent(p))
  {
    hide MkdirAll, Understood, DropPartial, Attributes.ApplyAttributes, Create, Bump;
  }

  /** What the current phase says, without what led there. */
  lemma PhaseOf(setup: Setup, m: Machine)
    requires m.r.Placing? && m.r.k < N(setup) && OnCourse(setup, m.r)
    ensures Understood(setup, m.r.k, m.r.st, m.r.plan, m.r.ops, m.r.data)
    ensures PhaseOk(setup, At(setup.job.cfg, Entry(setup.job, m.r.k)), m.r.st.fs, MustWrite(m.r.plan, m.r.data), m.r.data, m.r.fs, m.r.phase)
  {
    hide Understood, PhaseOk, MustWrite;
  }

  lemma RenameSucceeds(setup: Setup, m: Machine)
    requires Valid(setup.start) && m.r.Placing? && m.r.k < N(setup) && OnCourse(setup, m.r)
    requires m.r.phase.Filling? && m.r.phase.n >= |m.r.data|
    requires Commit(setup.job.cfg, Entry(setup.job, m.r.k), m.r.plan, m.r.data, m.r.st.fs).Ok?
    ensures RenameOnto(setup.job.cfg.proc, m.r.fs, m.r.phase.tmp, At(setup.job.cfg, Entry(setup.job, m.r.k))).Ok?
  {
    hide OnCourse, Valid, MkdirAll, Understood, OpenTemp, Fill, RenameOnto, Install, MustWrite, Commit;
    PhaseOf(setup, m);
    var r := m.r;
    assert r.data[..r.phase.n] == r.data;
    WritingSucceeds(setup, r.k, r.st, r.plan, r.ops, r.data);
    RenamedIsInstalled(setup, r.k, r.st, r.plan, r.ops, r.data, MkdirAll(setup.job.cfg.proc, r.st.fs, Parent(At(setup.job.cfg, Entry(setup.job, r.k)))).value, r.phase.tmp);
  }

  lemma OpenSucceeds(setup: Setup, m: Machine)
    requires TempFree(setup) && m.r.Placing? && m.r.k < N(setup) && OnCourse(setup, m.r) && m.r.phase.Opening?
    requires Commit(setup.job.cfg, Entry(setup.job, m.r.k), m.r.plan, m.r.data, m.r.st.fs).Ok?
    ensures var p := At(setup.job.cfg, Entry(setup.job, m.r.k));
      OpenTemp(setup.job.cfg.proc, m.r.fs, p, setup.temp(m.r.fs, p)).Ok?
  {
    hide OnCourse, TempFree, MkdirAll, Understood, OpenTemp, Install, MustWrite, Commit, IsDir;
    PhaseOf(setup, m);
    WritingSucceeds(setup, m.r.k, m.r.st, m.r.plan, m.r.ops, m.r.data);
    TempIsFree(setup, m.r.fs, At(setup.job.cfg, Entry(setup.job, m.r.k)));
  }

  lemma PlaceSucceeds(setup: Setup, m: Machine)
    requires Valid(setup.start) && TempFree(setup)
    requires m.r.Placing? && m.r.k < N(setup) && OnCourse(setup, m.r) && Run(setup.job, setup.start).Ok?
    ensures !PlaceStep(setup, m).ReceiverReturned?
  {
    hide OnCourse, Valid, Run, MkdirAll, Understood, OpenTemp, Fill, RenameOnto, DropPartial, Attributes.ApplyAttributes, AbandonOrKeep, Finished, MustWrite, Install, TempFree;
    CommitSucceeds(setup, m);
    PhaseOf(setup, m);
    if m.r.phase.Filling? && m.r.phase.n >= |m.r.data| {
      RenameSucceeds(setup, m);
    }
    if m.r.phase.Opening? {
      OpenSucceeds(setup, m);
    }
  }

  lemma TempIsFree(setup: Setup, fs: FS, p: Path)
    requires TempFree(setup) && p != [] && IsDir(fs, Parent(p))
    ensures OpenTemp(setup.job.cfg.proc, fs, p, setup.temp(fs, p)).Ok?
  {
  }

  lemma {:induction false} GroupPrefixSucceeds(cfg: Config, g: Group, k: nat, n: nat, fs: FS)
    requires k <= n <= |g| && LinkGroup(cfg, g, n, fs).Ok?
    ensures LinkGroup(cfg, g, k, fs).Ok?
  {
    hide LinkMember;
    if k < n {
      GroupPrefixSucceeds(cfg, g, k, n - 1, fs);
    }
  }

  lemma {:induction false} PassPrefixSucceeds(cfg: Config, groups: seq<Group>, k: nat, n: nat, fs: FS)
    requires k <= n <= |groups| && LinkPass(cfg, groups, n, fs).Ok?
    ensures LinkPass(cfg, groups, k, fs).Ok?
  {
    hide LinkGroup;
    if k < n {
      PassPrefixSucceeds(cfg, groups, k, n - 1, fs);
    }
  }

  lemma LinkPassSucceeds(setup: Setup, st: State)
    requires Run(setup.job, setup.start).Ok? && Reached(setup, N(setup), st) && !setup.job.cfg.ropts.dryRun
    ensures LinkPass(setup.job.cfg, setup.job.list.groups, |setup.job.list.groups|, st.fs).Ok?
  {
    hide LinkPass, DirPass, After;
  }

  lemma NextLinkSucceeds(setup: Setup, before: FS, g: nat, n: nat)
    requires g < |setup.job.list.groups| && 1 <= n < |setup.job.list.groups[g]|
    requires LinkPass(setup.job.cfg, setup.job.list.groups, |setup.job.list.groups|, before).Ok?
    ensures LinkedSoFar(setup, before, g, n).Ok?
    ensures LinkMember(setup.job.cfg, setup.job.list.groups[g][0], setup.job.list.groups[g][n], LinkedSoFar(setup, before, g, n).value).Ok?
  {
    hide LinkMember, LinkedSoFar, LinkPass;
    LinkedUpToSucceeds(setup, before, g, n);
    LinkedUpToSucceeds(setup, before, g, n + 1);
    LinkGroupNext(setup, before, g, n);
  }

  lemma LinkedUpToSucceeds(setup: Setup, before: FS, g: nat, n: nat)
    requires g < |setup.job.list.groups| && 1 <= n <= |setup.job.list.groups[g]|
    requires LinkPass(setup.job.cfg, setup.job.list.groups, |setup.job.list.groups|, before).Ok?
    ensures LinkedSoFar(setup, before, g, n).Ok?
  {
    hide LinkGroup;
    var cfg, groups := setup.job.cfg, setup.job.list.groups;
    PassPrefixSucceeds(cfg, groups, g + 1, |groups|, before);
    GroupPrefixSucceeds(cfg, groups[g], n, |groups[g]|, LinkPass(cfg, groups, g, before).value);
  }

  lemma LinkSucceeds(setup: Setup, m: Machine)
    requires m.r.Linking? && OnCourse(setup, m.r) && Run(setup.job, setup.start).Ok?
    ensures !LinkStep(setup, m).ReceiverReturned?
  {
    hide Run, LinkPass, LinkGroup, LinkedSoFar, MkdirAll, Remove, LinkTo, Reached;
    LinkPassSucceeds(setup, m.r.st);
    if m.r.g < |setup.job.list.groups| && m.r.n < |setup.job.list.groups[m.r.g]| {
      NextLinkSucceeds(setup, m.r.st.fs, m.r.g, m.r.n);
    }
  }

  lemma StampSucceeds(setup: Setup, m: Machine)
    requires m.r.Stamping? && m.r.k <= N(setup) && OnCourse(setup, m.r) && Run(setup.job, setup.start).Ok?
    ensures StampStep(setup, m).ReceiverReturned? ==> StampStep(setup, m).ok
  {
    hide After, Attributes.ApplyAttributes, LinkPass;
  }

  /** The steps that wait for or write to the sender. */
  lemma WaitingSucceeds(setup: Setup, m: Machine)
    requires Inv(setup, m) && NobodyFailed(m) && ReceiverStep(setup, m).Some?
    requires m.r.AwaitingList? || m.r.Asking? || m.r.AskBlocked? || (m.r.AwaitingDelta? && m.toR.None?)
    ensures NobodyFailed(ReceiverStep(setup, m).value)
  {
    hide Valid, Recorded, Transfers, Reply, Prepare, After, DeltaStep;
  }

  lemma AnswerArrived(setup: Setup, m: Machine)
    requires Inv(setup, m) && m.r.AwaitingDelta? && m.toR.Some?
    ensures m.r.k < N(setup) && Answer(setup, m.r.k, m.r.plan) == Ok(m.toR.value)
  {
    hide Valid, Recorded, OnCourse, Reply;
  }

  lemma ReceiverSucceeds(setup: Setup, m: Machine)
    requires Inv(setup, m) && NobodyFailed(m) && Run(setup.job, setup.start).Ok? && TempFree(setup) && ReceiverStep(setup, m).Some?
    ensures NobodyFailed(ReceiverStep(setup, m).value)
  {
    if m.r.AwaitingList? || m.r.Asking? || m.r.AskBlocked? || (m.r.AwaitingDelta? && m.toR.None?) {
      WaitingSucceeds(setup, m);
    } else {
      WorkSucceeds(setup, m);
    }
  }

  lemma WorkSucceeds(setup: Setup, m: Machine)
    requires Inv(setup, m) && NobodyFailed(m) && Run(setup.job, setup.start).Ok? && TempFree(setup) && ReceiverStep(setup, m).Some?
    requires m.r.AtEntry? || (m.r.AwaitingDelta? && m.toR.Some?) || m.r.Placing? || m.r.Linking? || m.r.Stamping?
    ensures NobodyFailed(ReceiverStep(setup, m).value)
  {
    hide TempFree, PlaceStep, LinkStep, StampStep, EntryStep, DeltaStep, Run, After, Valid, Recorded, InStep, Transfers, Reply, Prepare, ReadDelta, NewData, PhaseOk, LinkingOk, Passes;
    match m.r {
      case AtEntry(k, _) => if k < N(setup) { EntrySucceeds(setup, m); }
      case AwaitingDelta(k, _, _) => AnswerArrived(setup, m); DeltaSucceeds(setup, m);
      case Placing(k, _, _, _, _, _, _) => PlaceSucceeds(setup, m);
      case Linking(_, _, _, _, _) => LinkSucceeds(setup, m);
      case Stamping(_, _, _) => StampSucceeds(setup, m);
    }
  }

  lemma {:induction false} FaultlessNeverFails(setup: Setup, schedule: seq<Choice>)
    requires Valid(setup.start) && TempFree(setup) && Faultless(schedule) && Run(setup.job, setup.start).Ok?
    ensures NobodyFailed(Exec(setup, schedule))
  {
    hide Valid, TempFree, Run, Inv, SenderStep, ReceiverStep;
    if schedule != [] {
      var before := schedule[..|schedule| - 1];
      FaultlessNeverFails(setup, before);
      EveryInterleaving(setup, before);
      var m := Exec(setup, before);
      hide NobodyFailed;
      match schedule[|schedule| - 1] {
        case RunSender => if SenderStep(setup, m).Some? { SenderSucceeds(setup, m); }
        case RunReceiver => if ReceiverStep(setup, m).Some? { ReceiverSucceeds(setup, m); }
        case _ =>
      }
    }
  }

  /** Without outside failures every schedule that ends comes out the same: nil exactly when the sequential run succeeds. */
  lemma OutcomeIsDetermined(setup: Setup, schedule: seq<Choice>)
    requires Valid(setup.start) && TempFree(setup) && Faultless(schedule) && BothReturned(Exec(setup, schedule))
    ensures Outcome(Exec(setup, schedule)) <==> Run(setup.job, setup.start).Ok?
  {
    hide Valid, TempFree, Run, Exec;
    if Outcome(Exec(setup, schedule)) {
      SyncLocalIsRun(setup, schedule);
    }
    if Run(setup.job, setup.start).Ok? {
      FaultlessNeverFails(setup, schedule);
    }
  }
}
