/**
 * In every interleaving the receiver is somewhere along the one sequential
 * run, the sender waits for exactly what the receiver will send next, and at
 * most one frame is in flight.
 */
module Lockstep {
  import opened Prelude
  import opened FileSystem
  import opened Entries
  import opened Delta
  import opened Receiver
  import opened SyncRun
  import opened TempWrite
  import opened LocalSync
  import opened Contents

  // ---- The receiver is at a point of the sequential run ----

  /** k entries are done and the state is the sequential run's. */
  predicate Reached(setup: Setup, k: nat, st: State) {
    k <= N(setup) && After(setup.job, setup.start, k).Ok? && After(setup.job, setup.start, k).value.st == st
  }

  /** Entry k is transferred, and plan is what the receiver makes of what is there. */
  predicate Planned(setup: Setup, k: nat, plan: Plan) {
    && k < N(setup) && After(setup.job, setup.start, k).Ok? && Transfers(setup.job.list, Entry(setup.job, k))
    && Prepare(setup.job.cfg, Entry(setup.job, k), After(setup.job, setup.start, k).value.st.fs) == Ok(plan)
  }

  function Question(setup: Setup, k: nat, plan: Plan): Message
    requires k < N(setup)
  {
    SignatureFor(Entry(setup.job, k), plan)
  }

  function Answer(setup: Setup, k: nat, plan: Plan): Result<Message, Failure>
    requires k < N(setup)
  {
    Reply(setup.job.cfg, setup.job.src, Entry(setup.job, k), Question(setup, k, plan))
  }

  predicate Asked(setup: Setup, k: nat, st: State, plan: Plan) {
    Planned(setup, k, plan) && st == CountSent(setup.job.cfg, Question(setup, k, plan), After(setup.job, setup.start, k).value.st)
  }

  /** The answer arrived and was understood. */
  predicate Understood(setup: Setup, k: nat, st: State, plan: Plan, ops: seq<Op>, data: Bytes) {
    && Planned(setup, k, plan) && !setup.job.cfg.ropts.dryRun
    && Answer(setup, k, plan).Ok?
    && st == CountReceived(setup.job.cfg, Answer(setup, k, plan).value,
                           CountSent(setup.job.cfg, Question(setup, k, plan), After(setup.job, setup.start, k).value.st))
    && ReadDelta(setup.job.cfg, Entry(setup.job, k), Answer(setup, k, plan).value) == Ok(ops)
    && NewData(plan, ops) == Ok(data)
  }

  /** The disk while entry k's new bytes are put in place at p. */
  predicate PhaseOk(setup: Setup, p: Path, before: FS, must: bool, data: Bytes, fs: FS, phase: Phase) {
    var proc, made := setup.job.cfg.proc, MkdirAll(setup.job.cfg.proc, before, Parent(p));
    match phase
    case Making => fs == before
    case Opening => must && made == Ok(fs)
    case Filling(tmp, n) =>
      && must && made.Ok? && n <= |data| && tmp == setup.temp(made.value, p)
      && OpenTemp(proc, made.value, p, tmp).Ok?
      && fs == Fill(OpenTemp(proc, made.value, p, tmp).value, tmp, data[..n])
    case Written => made.Ok? && (if must then Install(proc, made.value, p, data) == Ok(fs) else fs == made.value)
  }

  function GroupLength(setup: Setup, g: nat): nat {
    if g < |setup.job.list.groups| then |setup.job.list.groups[g]| else 1
  }

  /** The disk once groups before g, and members before n of group g, are relinked. */
  function LinkedSoFar(setup: Setup, before: FS, g: nat, n: nat): Result<FS, Failure>
    requires g <= |setup.job.list.groups|
  {
    match LinkPass(setup.job.cfg, setup.job.list.groups, g, before)
    case Err(x) => Err(x)
    case Ok(base) =>
      if g == |setup.job.list.groups| then Ok(base)
      else LinkGroup(setup.job.cfg, setup.job.list.groups[g], if n <= GroupLength(setup, g) then n else GroupLength(setup, g), base)
  }

  predicate LinkingOk(setup: Setup, g: nat, n: nat, before: FS, fs: FS, step: LinkPhase) {
    && g <= |setup.job.list.groups| && 1 <= n
    && LinkedSoFar(setup, before, g, n).Ok?
    && (n <= GroupLength(setup, g) || n == 1)
    && var here := LinkedSoFar(setup, before, g, n).value;
       if step == MakeParent then fs == here
       else
         && g < |setup.job.list.groups| && n < GroupLength(setup, g)
         && var member := setup.job.cfg.dest + setup.job.list.groups[g][n];
            var made := MkdirAll(setup.job.cfg.proc, here, Parent(member));
            && made.Ok?
            && (if step == Unlink then fs == made.value else Remove(setup.job.cfg.proc, made.value, member) == Ok(fs))
  }

  /** Where the receiver is and what is on its disk, told by the sequential run alone. */
  predicate OnCourse(setup: Setup, r: ReceiverPc) {
    match r
    case AwaitingList => true
    case AtEntry(k, st) => Reached(setup, k, st)
    case Asking(k, st, plan) => Reached(setup, k, st) && Planned(setup, k, plan)
    case AskBlocked(k, st, plan) => Asked(setup, k, st, plan)
    case AwaitingDelta(k, st, plan) => Asked(setup, k, st, plan)
    case Placing(k, st, plan, ops, data, fs, phase) =>
      && Understood(setup, k, st, plan, ops, data)
      && PhaseOk(setup, At(setup.job.cfg, Entry(setup.job, k)), st.fs, MustWrite(plan, data), data, fs, phase)
    case Linking(g, n, st, fs, step) =>
      !setup.job.cfg.ropts.dryRun && Reached(setup, N(setup), st) && LinkingOk(setup, g, n, st.fs, fs, step)
    case Stamping(k, st, fs) =>
      && !setup.job.cfg.ropts.dryRun && Reached(setup, N(setup), st) && k <= N(setup)
      && Passes(setup.job.cfg, setup.job.list, st.fs) == DirPass(setup.job.cfg, setup.job.list.entries, k, fs)
    case ReceiverReturned(ok, st, _) => ok ==> Run(setup.job, setup.start).Ok? && Run(setup.job, setup.start).value.st == st
  }

  // ---- Each receiver step stays on course ----

  lemma LocalAdvances(setup: Setup, k: nat, st: State)
    requires k < N(setup) && Reached(setup, k, st) && !Transfers(setup.job.list, Entry(setup.job, k))
    requires ReceiveLocal(setup.job.cfg, Entry(setup.job, k), st).Ok?
    ensures Reached(setup, k + 1, ReceiveLocal(setup.job.cfg, Entry(setup.job, k), st).value)
    ensures After(setup.job, setup.start, k + 1).value.delivered == After(setup.job, setup.start, k).value.delivered
  {
    hide ReceiveLocal, Transfers;
  }

  lemma TransferAdvances(setup: Setup, k: nat, plan: Plan)
    requires Planned(setup, k, plan) && Answer(setup, k, plan).Ok?
    ensures var e, pr := Entry(setup.job, k), After(setup.job, setup.start, k).value;
      var taken := TakeDelta(setup.job.cfg, e, plan, Answer(setup, k, plan).value, CountSent(setup.job.cfg, Question(setup, k, plan), pr.st));
      && (taken.Ok? <==> After(setup.job, setup.start, k + 1).Ok?)
      && (taken.Ok? ==> Reached(setup, k + 1, taken.value))
      && (taken.Ok? ==> After(setup.job, setup.start, k + 1).value.delivered == pr.delivered + [Answer(setup, k, plan).value])
  {
    hide TakeDelta, Reply, Prepare, Transfers;
  }

  lemma FinishedIsTaken(setup: Setup, k: nat, st: State, plan: Plan, ops: seq<Op>, data: Bytes, fs: FS)
    requires Understood(setup, k, st, plan, ops, data)
    requires PhaseOk(setup, At(setup.job.cfg, Entry(setup.job, k)), st.fs, MustWrite(plan, data), data, fs, Written)
    ensures var cfg, e := setup.job.cfg, Entry(setup.job, k);
      var dropped := if MustWrite(plan, data) then DropPartial(cfg, e, plan, fs) else fs;
      var stamped := FromAttr(Attributes.ApplyAttributes(cfg.proc, dropped, e, At(cfg, e), cfg.attrs));
      TakeDelta(cfg, e, plan, Answer(setup, k, plan).value, CountSent(cfg, Question(setup, k, plan), After(setup.job, setup.start, k).value.st))
      == match stamped
         case Err(x) => Err(x)
         case Ok(done) => Ok(Finished(cfg, e, plan, ops, data, st, done))
  {
    hide ReadDelta, NewData, MkdirAll, Install, DropPartial, Attributes.ApplyAttributes, Prepare, Reply, After, MustWrite;
  }

  lemma FillNothing(proc: Process, fs: FS, p: Path, tmp: Path)
    requires OpenTemp(proc, fs, p, tmp).Ok?
    ensures Fill(OpenTemp(proc, fs, p, tmp).value, tmp, []) == OpenTemp(proc, fs, p, tmp).value
  {
    var begun := OpenTemp(proc, fs, p, tmp).value;
    if Lookup(begun, tmp).Some? {
      var inode := Lookup(begun, tmp).value;
      CreatedHolds(proc, fs, tmp, File(Fresh(proc, fs, FILE_MODE), []));
      assert begun.inodes[begun.names[tmp] := inode] == begun.inodes;
    }
  }

  /** A created name holds what it was created with. */
  lemma CreatedHolds(proc: Process, fs: FS, p: Path, inode: Inode)
    requires p != []
    ensures Lookup(Create(proc, fs, p, inode), p).Some?
    ensures inode.File? ==> Lookup(Create(proc, fs, p, inode), p).value.File?
    ensures inode.File? ==> Lookup(Create(proc, fs, p, inode), p).value.content == inode.content
  {
  }

  // ---- Each step of placing a file ----

  lemma PlaceStays(setup: Setup, m: Machine)
    requires Valid(setup.start) && m.r.Placing? && m.r.k < N(setup) && OnCourse(setup, m.r)
    ensures OnCourse(setup, PlaceStep(setup, m))
    ensures var next := PlaceStep(setup, m);
      (next.ReceiverReturned? && !next.ok) || (next.Placing? && next == m.r.(phase := next.phase, fs := next.fs)) || (next.AtEntry? && next.k == m.r.k + 1)
  {
    hide Valid, MkdirAll, OpenTemp, Fill, RenameOnto, Install, DropPartial, Attributes.ApplyAttributes, AbandonOrKeep, Finished, Understood, MustWrite;
    var cfg, e, r := setup.job.cfg, Entry(setup.job, m.r.k), m.r;
    var p := At(cfg, e);
    match r.phase
    case Making =>
    case Opening =>
      var tmp := setup.temp(r.fs, p);
      if OpenTemp(cfg.proc, r.fs, p, tmp).Ok? {
        FillNothing(cfg.proc, r.fs, p, tmp);
        assert r.data[..0] == [];
      }
    case Filling(tmp, n) =>
      var made := MkdirAll(cfg.proc, r.st.fs, Parent(p)).value;
      var begun := OpenTemp(cfg.proc, made, p, tmp).value;
      if n < |r.data| {
        FillAgain(begun, tmp, r.data[..n], r.data[..ChunkEnd(setup, n, |r.data|)]);
      } else {
        assert r.data[..n] == r.data;
        RenamedIsInstalled(setup, r.k, r.st, r.plan, r.ops, r.data, made, tmp);
      }
    case Written =>
      FinishedIsTaken(setup, r.k, r.st, r.plan, r.ops, r.data, r.fs);
      if PlaceStep(setup, m).AtEntry? {
        PlacedIsReached(setup, m);
      }
  }

  lemma RenamedIsInstalled(setup: Setup, k: nat, st: State, plan: Plan, ops: seq<Op>, data: Bytes, made: FS, tmp: Path)
    requires Valid(setup.start) && Understood(setup, k, st, plan, ops, data)
    requires MkdirAll(setup.job.cfg.proc, st.fs, Parent(At(setup.job.cfg, Entry(setup.job, k)))) == Ok(made)
    requires OpenTemp(setup.job.cfg.proc, made, At(setup.job.cfg, Entry(setup.job, k)), tmp).Ok?
    ensures var proc, p := setup.job.cfg.proc, At(setup.job.cfg, Entry(setup.job, k));
      RenameOnto(proc, Fill(OpenTemp(proc, made, p, tmp).value, tmp, data), tmp, p) == Install(proc, made, p, data)
  {
    hide Valid, WorksOn, After, Prepare, Reply, ReadDelta, NewData;
    var proc, p := setup.job.cfg.proc, At(setup.job.cfg, Entry(setup.job, k));
    AfterIsValid(setup.job, setup.start, k);
    MkdirAllWorks(proc, st.fs, Parent(p), Parent(p));
    hide MkdirAll;
    if p != [] {
      WriteByParts(proc, made, p, tmp, data);
    }
  }

  lemma PlacedIsReached(setup: Setup, m: Machine)
    requires m.r.Placing? && m.r.phase.Written? && m.r.k < N(setup) && OnCourse(setup, m.r) && PlaceStep(setup, m).AtEntry?
    ensures Reached(setup, m.r.k + 1, PlaceStep(setup, m).st)
  {
    hide MkdirAll, Install, DropPartial, Attributes.ApplyAttributes, Finished, MustWrite, Prepare, Reply, ReadDelta, NewData, TakeDelta, After, Reached;
    FinishedIsTaken(setup, m.r.k, m.r.st, m.r.plan, m.r.ops, m.r.data, m.r.fs);
    TransferAdvances(setup, m.r.k, m.r.plan);
  }

  // ---- Each step of the final passes ----

  lemma LinkGroupNext(setup: Setup, before: FS, g: nat, n: nat)
    requires g < |setup.job.list.groups| && 1 <= n < GroupLength(setup, g) && LinkedSoFar(setup, before, g, n).Ok?
    ensures LinkedSoFar(setup, before, g, n + 1)
         == LinkMember(setup.job.cfg, setup.job.list.groups[g][0], setup.job.list.groups[g][n], LinkedSoFar(setup, before, g, n).value)
  {
    hide LinkMember, LinkPass;
  }

  lemma LinkPassNext(setup: Setup, before: FS, g: nat, n: nat)
    requires g < |setup.job.list.groups| && GroupLength(setup, g) <= n && LinkedSoFar(setup, before, g, n).Ok?
    ensures LinkedSoFar(setup, before, g + 1, 1) == LinkedSoFar(setup, before, g, n)
  {
    hide LinkMember;
    var groups := setup.job.list.groups;
    assert LinkPass(setup.job.cfg, groups, g + 1, before) == LinkedSoFar(setup, before, g, n);
  }

  /** The first member is left alone. */
  lemma LinkFromStart(setup: Setup, before: FS)
    ensures LinkedSoFar(setup, before, 0, 1) == Ok(before)
  {
  }

  lemma LinkStays(setup: Setup, m: Machine)
    requires m.r.Linking? && OnCourse(setup, m.r)
    ensures OnCourse(setup, LinkStep(setup, m))
    ensures var next := LinkStep(setup, m); next.ReceiverReturned? ==> !next.ok
    ensures var next := LinkStep(setup, m); next.ReceiverReturned? || next.Linking? || next.Stamping?
  {
    hide MkdirAll, Remove, LinkTo, LinkPass, LinkGroup, DirPass, Reached, LinkedSoFar;
    var cfg, groups, r := setup.job.cfg, setup.job.list.groups, m.r;
    if r.g >= |groups| {
      PassesSplit(setup, r.st.fs, r.n);
    } else if r.n >= |groups[r.g]| {
      LinkPassNext(setup, r.st.fs, r.g, r.n);
    } else {
      LinkGroupNext(setup, r.st.fs, r.g, r.n);
    }
  }

  lemma PassesSplit(setup: Setup, before: FS, n: nat)
    requires !setup.job.cfg.ropts.dryRun && LinkedSoFar(setup, before, |setup.job.list.groups|, n).Ok?
    ensures Passes(setup.job.cfg, setup.job.list, before)
         == DirPass(setup.job.cfg, setup.job.list.entries, N(setup), LinkedSoFar(setup, before, |setup.job.list.groups|, n).value)
  {
    hide LinkPass, DirPass;
  }

  lemma StampStays(setup: Setup, m: Machine)
    requires m.r.Stamping? && m.r.k <= N(setup) && OnCourse(setup, m.r)
    ensures OnCourse(setup, StampStep(setup, m))
    ensures var next := StampStep(setup, m); next.ReceiverReturned? || next.Stamping?
  {
    hide Attributes.ApplyAttributes, After, Passes;
  }

  // ---- Each step of an entry ----

  lemma EntryStays(setup: Setup, m: Machine)
    requires m.r.AtEntry? && m.r.k < N(setup) && OnCourse(setup, m.r)
    ensures OnCourse(setup, EntryStep(setup, m))
    ensures var next := EntryStep(setup, m);
      || (next.ReceiverReturned? && !next.ok)
      || (Transfers(setup.job.list, Entry(setup.job, m.r.k)) && next.Asking? && next.k == m.r.k)
      || (!Transfers(setup.job.list, Entry(setup.job, m.r.k)) && next.AtEntry? && next.k == m.r.k + 1)
  {
    hide ReceiveLocal, Prepare, After, Transfers;
    var cfg, e, r := setup.job.cfg, Entry(setup.job, m.r.k), m.r;
    if !Transfers(setup.job.list, e) {
      if ReceiveLocal(cfg, e, r.st).Ok? {
        LocalAdvances(setup, r.k, r.st);
      }
    }
  }

  lemma DeltaStays(setup: Setup, m: Machine)
    requires m.r.AwaitingDelta? && m.r.k < N(setup) && OnCourse(setup, m.r) && Answer(setup, m.r.k, m.r.plan).Ok?
    ensures var next := DeltaStep(setup, m, Answer(setup, m.r.k, m.r.plan).value);
      && OnCourse(setup, next)
      && ((next.ReceiverReturned? && !next.ok) || (next.Placing? && next.k == m.r.k && next.plan == m.r.plan) || (next.AtEntry? && next.k == m.r.k + 1))
  {
    hide ReadDelta, NewData, Prepare, After, Transfers, Reply, TakeDelta, Finished, Commit;
    var cfg, e, r := setup.job.cfg, Entry(setup.job, m.r.k), m.r;
    var msg := Answer(setup, r.k, r.plan).value;
    if cfg.ropts.dryRun && DeltaStep(setup, m, msg).AtEntry? {
      DryDelta(setup, m, msg);
      TransferAdvances(setup, r.k, r.plan);
    }
  }

  lemma DryDelta(setup: Setup, m: Machine, msg: Message)
    requires m.r.AwaitingDelta? && m.r.k < N(setup) && setup.job.cfg.ropts.dryRun && DeltaStep(setup, m, msg).AtEntry?
    ensures TakeDelta(setup.job.cfg, Entry(setup.job, m.r.k), m.r.plan, msg, m.r.st) == Ok(DeltaStep(setup, m, msg).st)
  {
    hide ReadDelta, NewData;
  }

  // ---- Both sides choose the same entries in the same order ----

  /** The first entry from i on that is transferred, or the length of the list. */
  function NextTransfer(setup: Setup, i: nat): (j: nat)
    requires i <= N(setup)
    ensures i <= j <= N(setup)
    ensures forall n :: i <= n < j ==> !Transfers(setup.job.list, Entry(setup.job, n))
    ensures j < N(setup) ==> Transfers(setup.job.list, Entry(setup.job, j))
    decreases N(setup) - i
  {
    if i == N(setup) || Transfers(setup.job.list, Entry(setup.job, i)) then i else NextTransfer(setup, i + 1)
  }

  /** The sender has answered everything before entry t, the next to be transferred, and waits or is about to wait for it. */
  predicate SenderHeadsFor(setup: Setup, s: SenderPc, t: nat) {
    match s
    case Flushing(next, _) => next <= N(setup) && NextTransfer(setup, next) == t
    case Loop(i) => i <= N(setup) && NextTransfer(setup, i) == t
    case Awaiting(i) => i == t && i < N(setup)
    case SenderReturned(ok) => ok ==> t == N(setup)
    case _ => false
  }

  /** The next entry the receiver will ask about. */
  function ReceiverHeadsFor(setup: Setup, r: ReceiverPc): nat {
    match r
    case AtEntry(k, _) => if k <= N(setup) then NextTransfer(setup, k) else k
    case Asking(k, _, _) => k
    case Placing(k, _, _, _, _, _, _) => if k < N(setup) then NextTransfer(setup, k + 1) else k
    case _ => N(setup)
  }

  /** Which frames may be in the pipes, for every pair of positions the two sides can be in. */
  predicate InStep(setup: Setup, m: Machine) {
    match m.r
    case AwaitingList =>
      && m.toS.None?
      && (match m.s
          case SendingList => m.toR.None?
          case Flushing(next, written) => next == 0 && written == FileListMsg(setup.job.list) && m.toR == Some(written)
          case SenderReturned(ok) => !ok && m.toR.None?
          case _ => false)
    case AskBlocked(k, _, plan) =>
      if m.toS.Some? then k < N(setup) && m.toS == Some(Question(setup, k, plan)) && m.toR.None? && SenderHeadsFor(setup, m.s, k)
      else SenderAnswers(setup, m, k, plan)
    case AwaitingDelta(k, _, plan) => m.toS.None? && SenderAnswers(setup, m, k, plan)
    case ReceiverReturned(ok, _, _) =>
      if ok then m.toS.None? && m.toR.None? && SenderHeadsFor(setup, m.s, N(setup))
      else m.toS.None? || m.toR.None?
    case _ => m.toS.None? && m.toR.None? && SenderHeadsFor(setup, m.s, ReceiverHeadsFor(setup, m.r))
  }

  /** The sender has read the question about entry k. */
  predicate SenderAnswers(setup: Setup, m: Machine, k: nat, plan: Plan) {
    && k < N(setup)
    && match m.s
       case Answering(i, reply) => i == k && m.toR.None? && Answer(setup, k, plan) == Ok(reply)
       case Flushing(next, reply) => next == k + 1 && m.toR == Some(reply) && Answer(setup, k, plan) == Ok(reply)
       case SenderReturned(ok) => !ok && m.toR.None?
       case _ => false
  }

  /** What the receiver has read so far. */
  function Heard(setup: Setup, r: ReceiverPc): seq<Message> {
    match r
    case AwaitingList => []
    case AtEntry(k, _) => DeliveredBy(setup, k)
    case Asking(k, _, _) => DeliveredBy(setup, k)
    case AskBlocked(k, _, _) => DeliveredBy(setup, k)
    case AwaitingDelta(k, _, _) => DeliveredBy(setup, k)
    case Placing(k, _, plan, _, _, _, _) =>
      DeliveredBy(setup, k) + if k < N(setup) && Answer(setup, k, plan).Ok? then [Answer(setup, k, plan).value] else []
    case _ => DeliveredBy(setup, N(setup))
  }

  function DeliveredBy(setup: Setup, k: nat): seq<Message> {
    if k <= N(setup) && After(setup.job, setup.start, k).Ok? then After(setup.job, setup.start, k).value.delivered else []
  }

  /** What the sender has written so far, counting a write that has not returned. */
  function Spoken(m: Machine): seq<Message> {
    m.recorded + if m.s.Flushing? then [m.s.written] else []
  }

  function InFlight(frame: Option<Message>): seq<Message> {
    if frame.Some? then [frame.value] else []
  }

  predicate Recorded(setup: Setup, m: Machine) {
    (m.r.ReceiverReturned? ==> m.r.ok) ==> Spoken(m) == Heard(setup, m.r) + InFlight(m.toR)
  }

  predicate InList(setup: Setup, s: SenderPc) {
    match s
    case Flushing(next, _) => next <= N(setup)
    case Loop(i) => i <= N(setup)
    case Awaiting(i) => i < N(setup)
    case Answering(i, _) => i < N(setup)
    case _ => true
  }

  /** The invariant of every interleaving. */
  ghost predicate Inv(setup: Setup, m: Machine) {
    Valid(setup.start) && OnCourse(setup, m.r) && InStep(setup, m) && InList(setup, m.s) && Recorded(setup, m)
  }

  lemma InvAtStart(setup: Setup)
    requires Valid(setup.start)
    ensures Inv(setup, Init(setup))
  {
  }

  // ---- The sender's steps ----

  lemma LoopStaysInStep(setup: Setup, m: Machine)
    requires InStep(setup, m) && InList(setup, m.s) && SenderStep(setup, m).Some? && (m.s.Flushing? || m.s.Loop?)
    ensures InStep(setup, SenderStep(setup, m).value) && InList(setup, SenderStep(setup, m).value.s)
  {
    hide Reply, Transfers, Question, ReceiverHeadsFor;
  }

  lemma WaitStaysInStep(setup: Setup, m: Machine)
    requires InStep(setup, m) && InList(setup, m.s) && SenderStep(setup, m).Some? && m.s.Awaiting?
    ensures InStep(setup, SenderStep(setup, m).value) && InList(setup, SenderStep(setup, m).value.s)
  {
    hide Reply, Transfers, NextTransfer;
  }

  lemma WriteStaysInStep(setup: Setup, m: Machine)
    requires InStep(setup, m) && InList(setup, m.s) && SenderStep(setup, m).Some? && (m.s.SendingList? || m.s.Answering?)
    ensures InStep(setup, SenderStep(setup, m).value) && InList(setup, SenderStep(setup, m).value.s)
  {
    hide Reply, Transfers, NextTransfer;
  }

  lemma SenderStaysInStep(setup: Setup, m: Machine)
    requires InStep(setup, m) && InList(setup, m.s) && SenderStep(setup, m).Some?
    ensures InStep(setup, SenderStep(setup, m).value) && InList(setup, SenderStep(setup, m).value.s)
  {
    hide InStep, InList;
    if m.s.Flushing? || m.s.Loop? {
      LoopStaysInStep(setup, m);
    } else if m.s.Awaiting? {
      WaitStaysInStep(setup, m);
    } else {
      assert !m.s.SenderReturned?;
      hide SenderStep;
      WriteStaysInStep(setup, m);
    }
  }

  lemma SenderRecords(setup: Setup, m: Machine)
    requires InStep(setup, m) && Recorded(setup, m) && SenderStep(setup, m).Some?
    ensures Recorded(setup, SenderStep(setup, m).value)
  {
    hide Heard, Reply, Transfers, SenderHeadsFor;
    var next := SenderStep(setup, m).value;
    assert Heard(setup, m.r) + [] == Heard(setup, m.r) && m.recorded + [] == m.recorded;
    assert next.recorded + [] == next.recorded && next.r == m.r;
  }

  lemma SenderKeeps(setup: Setup, m: Machine)
    requires Inv(setup, m) && SenderStep(setup, m).Some?
    ensures Inv(setup, SenderStep(setup, m).value)
  {
    hide Valid, OnCourse, InStep, InList, Recorded, Reply, Transfers;
    SenderStaysInStep(setup, m);
    SenderRecords(setup, m);
    assert SenderStep(setup, m).value.r == m.r;
  }

  lemma SenderFaultKeeps(setup: Setup, m: Machine)
    requires Inv(setup, m) && SenderFault(m).Some?
    ensures Inv(setup, SenderFault(m).value)
  {
    hide Valid, OnCourse, Heard, Reply, Transfers;
  }

  // ---- The receiver's steps ----

  lemma NothingAdded(s: seq<Message>)
    ensures s + [] == s
  {
  }

  lemma ListKeeps(setup: Setup, m: Machine)
    requires Inv(setup, m) && m.r.AwaitingList? && ReceiverStep(setup, m).Some?
    ensures Inv(setup, ReceiverStep(setup, m).value)
  {
    hide Valid, Transfers;
    var next := ReceiverStep(setup, m).value;
    NothingAdded(DeliveredBy(setup, 0));
    assert next.r.AtEntry? ==> Spoken(next) == Heard(setup, next.r) + InFlight(next.toR);
  }

  lemma EntryKeeps(setup: Setup, m: Machine)
    requires Inv(setup, m) && m.r.AtEntry? && ReceiverStep(setup, m).Some?
    ensures Inv(setup, ReceiverStep(setup, m).value)
  {
    hide Valid, Transfers, EntryStep, SenderHeadsFor, LinkPass, After;
    var next := ReceiverStep(setup, m).value;
    if m.r.k < N(setup) {
      hide OnCourse;
      EntryStays(setup, m);
      if next.r.AtEntry? {
        EntryHeard(setup, m);
      }
    } else {
      hide LinkedSoFar;
      LinkFromStart(setup, m.r.st.fs);
    }
  }

  lemma EntryHeard(setup: Setup, m: Machine)
    requires m.r.AtEntry? && m.r.k < N(setup) && OnCourse(setup, m.r)
    requires EntryStep(setup, m).AtEntry?
    ensures DeliveredBy(setup, m.r.k + 1) == DeliveredBy(setup, m.r.k)
  {
    hide ReceiveLocal, Prepare, Transfers;
    LocalAdvances(setup, m.r.k, m.r.st);
  }

  lemma AskKeeps(setup: Setup, m: Machine)
    requires Inv(setup, m) && (m.r.Asking? || m.r.AskBlocked?) && ReceiverStep(setup, m).Some?
    ensures Inv(setup, ReceiverStep(setup, m).value)
  {
    hide Valid, Transfers, SenderHeadsFor, Prepare, Reply, After;
    var next := ReceiverStep(setup, m).value;
    assert OnCourse(setup, next.r) && Recorded(setup, next);
  }

  lemma DeltaKeeps(setup: Setup, m: Machine)
    requires Inv(setup, m) && m.r.AwaitingDelta? && ReceiverStep(setup, m).Some?
    ensures Inv(setup, ReceiverStep(setup, m).value)
  {
    hide Valid, Transfers, DeltaStep, Prepare, Reply, Planned, After;
    var next, k, plan := ReceiverStep(setup, m).value, m.r.k, m.r.plan;
    if m.toR.Some? {
      hide OnCourse;
      DeltaStays(setup, m);
      NothingAdded(DeliveredBy(setup, k) + [m.toR.value]);
      if next.r.AtEntry? {
        DryHeard(setup, m);
        NothingAdded(DeliveredBy(setup, k + 1));
      }
    }
  }

  lemma DryHeard(setup: Setup, m: Machine)
    requires m.r.AwaitingDelta? && m.r.k < N(setup) && OnCourse(setup, m.r) && Answer(setup, m.r.k, m.r.plan).Ok?
    requires DeltaStep(setup, m, Answer(setup, m.r.k, m.r.plan).value).AtEntry?
    ensures DeliveredBy(setup, m.r.k + 1) == DeliveredBy(setup, m.r.k) + [Answer(setup, m.r.k, m.r.plan).value]
  {
    hide ReadDelta, NewData, Prepare, Transfers, Reply, TakeDelta, Finished;
    DryDelta(setup, m, Answer(setup, m.r.k, m.r.plan).value);
    TransferAdvances(setup, m.r.k, m.r.plan);
  }

  lemma PlaceKeeps(setup: Setup, m: Machine)
    requires Inv(setup, m) && m.r.Placing? && ReceiverStep(setup, m).Some?
    ensures Inv(setup, ReceiverStep(setup, m).value)
  {
    hide Valid, Transfers, PlaceStep, Prepare, Reply, PhaseOk, SenderHeadsFor, After;
    var next := ReceiverStep(setup, m).value;
    PlaceStays(setup, m);
    if next.r.AtEntry? {
      PlaceHeard(setup, m);
      NothingAdded(DeliveredBy(setup, m.r.k + 1));
    }
    NothingAdded(Heard(setup, m.r));
    hide OnCourse;

  }

  lemma PlaceHeard(setup: Setup, m: Machine)
    requires m.r.Placing? && m.r.k < N(setup) && OnCourse(setup, m.r) && PlaceStep(setup, m).AtEntry?
    ensures DeliveredBy(setup, m.r.k + 1) == DeliveredBy(setup, m.r.k) + [Answer(setup, m.r.k, m.r.plan).value]
  {
    hide ReadDelta, NewData, Prepare, Transfers, Reply, TakeDelta, Finished, MkdirAll, Install, MustWrite;
    FinishedIsTaken(setup, m.r.k, m.r.st, m.r.plan, m.r.ops, m.r.data, m.r.fs);
    TransferAdvances(setup, m.r.k, m.r.plan);
  }

  lemma FinalKeeps(setup: Setup, m: Machine)
    requires Inv(setup, m) && (m.r.Linking? || m.r.Stamping?) && ReceiverStep(setup, m).Some?
    ensures Inv(setup, ReceiverStep(setup, m).value)
  {
    hide Valid, LinkStep, StampStep, SenderHeadsFor, After, LinkingOk, Passes, DirPass;
    if m.r.Linking? {
      LinkStays(setup, m);
    } else {
      StampStays(setup, m);
    }
    hide OnCourse;
  }

  lemma ReceiverKeeps(setup: Setup, m: Machine)
    requires Inv(setup, m) && ReceiverStep(setup, m).Some?
    ensures Inv(setup, ReceiverStep(setup, m).value)
  {
    hide Inv, ReceiverStep;
    match m.r {
      case AwaitingList => ListKeeps(setup, m);
      case AtEntry(_, _) => EntryKeeps(setup, m);
      case Asking(_, _, _) => AskKeeps(setup, m);
      case AskBlocked(_, _, _) => AskKeeps(setup, m);
      case AwaitingDelta(_, _, _) => DeltaKeeps(setup, m);
      case Placing(_, _, _, _, _, _, _) => PlaceKeeps(setup, m);
      case Linking(_, _, _, _, _) => FinalKeeps(setup, m);
      case Stamping(_, _, _) => FinalKeeps(setup, m);
      case ReceiverReturned(_, _, _) => ReturnedRests(setup, m);
    }
  }

  lemma ReturnedRests(setup: Setup, m: Machine)
    ensures m.r.ReceiverReturned? ==> ReceiverStep(setup, m).None?
    ensures m.s.SenderReturned? ==> SenderStep(setup, m).None?
  {
  }

  lemma ReceiverFaultKeeps(setup: Setup, m: Machine, extra: nat, renames: bool)
    requires Inv(setup, m) && ReceiverFault(setup, m, extra, renames).Some?
    ensures Inv(setup, ReceiverFault(setup, m, extra, renames).value)
  {
    hide Valid, OnCourse, Transfers, AbandonOrKeep, Fill;
    var next := ReceiverFault(setup, m, extra, renames).value;
    assert next.r.ReceiverReturned? && !next.r.ok;
    assert OnCourse(setup, next.r) by {
      FailedIsOnCourse(setup, next.r);
    }
  }

  lemma FailedIsOnCourse(setup: Setup, r: ReceiverPc)
    requires r.ReceiverReturned? && !r.ok
    ensures OnCourse(setup, r)
  {
  }

  lemma NextKeeps(setup: Setup, m: Machine, c: Choice)
    requires Inv(setup, m)
    ensures Inv(setup, Next(setup, m, c))
  {
    hide Inv, SenderStep, ReceiverStep, SenderFault, ReceiverFault;
    match c {
      case RunSender => if SenderStep(setup, m).Some? { SenderKeeps(setup, m); }
      case RunReceiver => if ReceiverStep(setup, m).Some? { ReceiverKeeps(setup, m); }
      case BreakSender => if SenderFault(m).Some? { SenderFaultKeeps(setup, m); }
      case BreakReceiver(extra, renames) => if ReceiverFault(setup, m, extra, renames).Some? { ReceiverFaultKeeps(setup, m, extra, renames); }
    }
  }

  /** Every interleaving, with failures anywhere, stays within the invariant. */
  lemma {:induction false} EveryInterleaving(setup: Setup, schedule: seq<Choice>)
    requires Valid(setup.start)
    ensures Inv(setup, Exec(setup, schedule))
  {
    hide Inv, Next;
    if schedule == [] {
      InvAtStart(setup);
    } else {
      EveryInterleaving(setup, schedule[..|schedule| - 1]);
      NextKeeps(setup, Exec(setup, schedule[..|schedule| - 1]), schedule[|schedule| - 1]);
    }
  }
}
