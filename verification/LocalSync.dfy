/**
 * syncLocal as a state machine: Sender and Receiver each take one step at a
 * time over two synchronous pipes, in any order, and either may fail at any
 * point (internal/cli/sync.go:271-306, internal/pipeline/sender.go, receiver.go).
 */
module LocalSync {
  import opened Prelude
  import opened FileSystem
  import opened Entries
  import opened Itemize
  import opened Delta
  import opened Receiver
  import opened SyncRun
  import opened TempWrite

  /** A transfer, the destination before it, the names CreateTemp finds free, and whether progress is shown. */
  datatype Setup = Setup(job: Job, start: FS, temp: (FS, Path) -> Path, progress: bool)

  // ---- Sender ----

  /** Flushing: a message is in the pipe and Write has not returned; entry `next` is the one to look at after. */
  datatype SenderPc =
    | SendingList
    | Flushing(next: nat, written: Message)
    | Loop(i: nat)
    | Awaiting(i: nat)
    | Answering(i: nat, reply: Message)
    | SenderReturned(ok: bool)

  // ---- Receiver ----

  /** The steps of writing one file. */
  datatype Phase =
    | Making
    | Opening
    | Filling(tmp: Path, n: nat)
    | Written

  /** The steps of relinking one hard-link member. */
  datatype LinkPhase = MakeParent | Unlink | Relink

  datatype ReceiverPc =
    | AwaitingList
    | AtEntry(k: nat, st: State)
    | Asking(k: nat, st: State, plan: Plan)
    | AskBlocked(k: nat, st: State, plan: Plan)
    | AwaitingDelta(k: nat, st: State, plan: Plan)
    | Placing(k: nat, st: State, plan: Plan, ops: seq<Op>, data: Bytes, fs: FS, phase: Phase)
    | Linking(g: nat, n: nat, st: State, fs: FS, step: LinkPhase)
    | Stamping(k: nat, st: State, fs: FS)
    | ReceiverReturned(ok: bool, st: State, at: nat)

  /** toR and toS are the two pipes: at most one unconsumed frame each. recorded is the batch file. */
  datatype Machine = Machine(s: SenderPc, r: ReceiverPc, toR: Option<Message>, toS: Option<Message>, recorded: seq<Message>)

  function Init(setup: Setup): Machine {
    Machine(SendingList, AwaitingList, None, None, [])
  }

  function N(setup: Setup): nat {
    |setup.job.list.entries|
  }

  /** The destination's file system as it is on disk right now. */
  function Disk(setup: Setup, m: Machine): FS {
    match m.r
    case AwaitingList => setup.start
    case AtEntry(_, st) => st.fs
    case Asking(_, st, _) => st.fs
    case AskBlocked(_, st, _) => st.fs
    case AwaitingDelta(_, st, _) => st.fs
    case Placing(_, _, _, _, _, fs, _) => fs
    case Linking(_, _, _, fs, _) => fs
    case Stamping(_, _, fs) => fs
    case ReceiverReturned(_, st, _) => st.fs
  }

  /** The counters and lines so far. */
  function Report(setup: Setup, m: Machine): State {
    match m.r
    case AwaitingList => State(setup.start, NO_STATS, [])
    case AtEntry(_, st) => st
    case Asking(_, st, _) => st
    case AskBlocked(_, st, _) => st
    case AwaitingDelta(_, st, _) => st
    case Placing(_, st, _, _, _, _, _) => st
    case Linking(_, _, st, _, _) => st
    case Stamping(_, st, _) => st
    case ReceiverReturned(_, st, _) => st
  }

  /** The entry the receiver has reached; the final passes come after the last. */
  function Position(setup: Setup, m: Machine): nat {
    match m.r
    case AwaitingList => 0
    case AtEntry(k, _) => k
    case Asking(k, _, _) => k
    case AskBlocked(k, _, _) => k
    case AwaitingDelta(k, _, _) => k
    case Placing(k, _, _, _, _, _, _) => k
    case Linking(_, _, _, _, _) => N(setup)
    case Stamping(_, _, _) => N(setup)
    case ReceiverReturned(_, _, at) => at
  }

  /** Returning an error with the disk as given. */
  function FailWith(setup: Setup, m: Machine, fs: FS): ReceiverPc {
    ReceiverReturned(false, Report(setup, m).(fs := fs), Position(setup, m))
  }

  /** Returning an error: the disk stays as it is. */
  function Fail(setup: Setup, m: Machine): ReceiverPc {
    FailWith(setup, m, Disk(setup, m))
  }

  // ---- One step of the sender; None while it is blocked ----

  function SenderStep(setup: Setup, m: Machine): Option<Machine> {
    match m.s
    case SendingList =>
      if m.r.ReceiverReturned? then Some(m.(s := SenderReturned(false)))
      else if m.toR.Some? then None
      else
        var hello := FileListMsg(setup.job.list);
        Some(m.(s := Flushing(0, hello), toR := Some(hello)))
    case Flushing(next, written) =>
      if m.toR.None? then Some(m.(s := Loop(next), recorded := m.recorded + [written]))
      else if m.r.ReceiverReturned? then Some(m.(s := SenderReturned(false)))
      else None
    case Loop(i) =>
      if i >= N(setup) then Some(m.(s := SenderReturned(true)))
      else if !Transfers(setup.job.list, Entry(setup.job, i)) then Some(m.(s := Loop(i + 1)))
      else Some(m.(s := Awaiting(i)))
    case Awaiting(i) =>
      (match m.toS
       case Some(msg) =>
         if i >= N(setup) then Some(m.(s := SenderReturned(false)))
         else
           (match Reply(setup.job.cfg, setup.job.src, Entry(setup.job, i), msg)
            case Err(_) => Some(m.(s := SenderReturned(false), toS := None))
            case Ok(reply) => Some(m.(s := Answering(i, reply), toS := None)))
       case None => if m.r.ReceiverReturned? then Some(m.(s := SenderReturned(false))) else None)
    case Answering(i, reply) =>
      if m.r.ReceiverReturned? then Some(m.(s := SenderReturned(false)))
      else if m.toR.Some? then None
      else Some(m.(s := Flushing(i + 1, reply), toR := Some(reply)))
    case SenderReturned(_) => None
  }

  // ---- One step of the receiver ----

  function ChunkEnd(setup: Setup, n: nat, len: nat): nat {
    if !setup.progress || len <= CHUNK || n + CHUNK > len then len else n + CHUNK
  }

  /** One step of placing a file; `list` is what the receiver was sent. */
  function PlaceStep(setup: Setup, m: Machine): ReceiverPc
    requires m.r.Placing? && m.r.k < N(setup)
  {
    var cfg, e, r := setup.job.cfg, Entry(setup.job, m.r.k), m.r;
    match r.phase
    case Making =>
      (match MkdirAll(cfg.proc, r.fs, Parent(At(cfg, e)))
       case Err(_) => Fail(setup, m)
       case Ok(made) => r.(fs := made, phase := if MustWrite(r.plan, r.data) then Opening else Written))
    case Opening =>
      var tmp := setup.temp(r.fs, At(cfg, e));
      (match OpenTemp(cfg.proc, r.fs, At(cfg, e), tmp)
       case Err(_) => Fail(setup, m)
       case Ok(created) => r.(fs := created, phase := Filling(tmp, 0)))
    case Filling(tmp, n) =>
      if n < |r.data| then
        var end := ChunkEnd(setup, n, |r.data|);
        r.(fs := Fill(r.fs, tmp, r.data[..end]), phase := Filling(tmp, end))
      else
        (match RenameOnto(cfg.proc, r.fs, tmp, At(cfg, e))
         case Err(_) => FailWith(setup, m, AbandonOrKeep(cfg, e, r.fs, tmp, true))
         case Ok(renamed) => r.(fs := renamed, phase := Written))
    case Written =>
      var dropped := if MustWrite(r.plan, r.data) then DropPartial(cfg, e, r.plan, r.fs) else r.fs;
      (match FromAttr(Attributes.ApplyAttributes(cfg.proc, dropped, e, At(cfg, e), cfg.attrs))
       case Err(_) => FailWith(setup, m, dropped)
       case Ok(stamped) => AtEntry(r.k + 1, Finished(cfg, e, r.plan, r.ops, r.data, r.st, stamped)))
  }

  /** What Complete adds to the state once the file system is as it should be. */
  function Finished(cfg: Config, e: FileEntry, plan: Plan, ops: seq<Op>, data: Bytes, st: State, fs: FS): State {
    var code := ItemizeFile(e, plan.was, SizeOf(plan.was), cfg.ownerKnown, ContentChanged(plan, data), cfg.attrs);
    State(fs, CountRegular(e, plan, ops, data, st.stats), st.lines + Itemize.Report(cfg.ropts, code, e))
  }

  function LinkStep(setup: Setup, m: Machine): ReceiverPc
    requires m.r.Linking?
  {
    var cfg, groups, r := setup.job.cfg, setup.job.list.groups, m.r;
    if r.g >= |groups| then Stamping(N(setup), r.st, r.fs)
    else if r.n >= |groups[r.g]| then r.(g := r.g + 1, n := 1)
    else
      var first, member := cfg.dest + groups[r.g][0], cfg.dest + groups[r.g][r.n];
      match r.step
      case MakeParent =>
        (match MkdirAll(cfg.proc, r.fs, Parent(member))
         case Err(_) => Fail(setup, m)
         case Ok(made) => r.(fs := made, step := Unlink))
      case Unlink =>
        (match Remove(cfg.proc, r.fs, member)
         case Err(_) => Fail(setup, m)
         case Ok(gone) => r.(fs := gone, step := Relink))
      case Relink =>
        (match LinkTo(cfg.proc, r.fs, first, member)
         case Err(_) => Fail(setup, m)
         case Ok(linked) => r.(fs := linked, n := r.n + 1, step := MakeParent))
  }

  function StampStep(setup: Setup, m: Machine): ReceiverPc
    requires m.r.Stamping? && m.r.k <= N(setup)
  {
    var cfg, r := setup.job.cfg, m.r;
    if r.k == 0 then ReceiverReturned(true, r.st.(fs := r.fs), N(setup))
    else
      var e := Entry(setup.job, r.k - 1);
      if e.kind != Directory then r.(k := r.k - 1)
      else
        match FromAttr(Attributes.ApplyAttributes(cfg.proc, r.fs, e, At(cfg, e), cfg.attrs))
        case Err(_) => Fail(setup, m)
        case Ok(stamped) => r.(k := r.k - 1, fs := stamped)
  }

  function EntryStep(setup: Setup, m: Machine): ReceiverPc
    requires m.r.AtEntry? && m.r.k < N(setup)
  {
    var cfg, e, r := setup.job.cfg, Entry(setup.job, m.r.k), m.r;
    if !Transfers(setup.job.list, e) then
      match ReceiveLocal(cfg, e, r.st)
      case Err(_) => Fail(setup, m)
      case Ok(st) => AtEntry(r.k + 1, st)
    else
      match Prepare(cfg, e, r.st.fs)
      case Err(_) => Fail(setup, m)
      case Ok(plan) => Asking(r.k, r.st, plan)
  }

  /** The reaction to the delta frame: decode it, check it, rebuild the data, then start placing it. */
  function DeltaStep(setup: Setup, m: Machine, msg: Message): ReceiverPc
    requires m.r.AwaitingDelta? && m.r.k < N(setup)
  {
    var cfg, e, r := setup.job.cfg, Entry(setup.job, m.r.k), m.r;
    match ReadDelta(cfg, e, msg)
    case Err(_) => Fail(setup, m)
    case Ok(ops) =>
      match NewData(r.plan, ops)
      case Err(_) => Fail(setup, m)
      case Ok(data) =>
        var st := CountReceived(cfg, msg, r.st);
        if cfg.ropts.dryRun then AtEntry(r.k + 1, Finished(cfg, e, r.plan, ops, data, st, st.fs))
        else Placing(r.k, st, r.plan, ops, data, st.fs, Making)
  }

  /** The only list that can arrive is the sender's (see FramesAreExpected), so the receiver works on that one. */
  function ReceiverStep(setup: Setup, m: Machine): Option<Machine> {
    match m.r
    case AwaitingList =>
      (match m.toR
       case Some(msg) =>
         if msg == FileListMsg(setup.job.list) then
           Some(m.(toR := None, r := AtEntry(0, CountReceived(setup.job.cfg, msg, State(setup.start, NO_STATS, [])))))
         else Some(m.(toR := None, r := Fail(setup, m)))
       case None => if m.s.SenderReturned? then Some(m.(r := Fail(setup, m))) else None)
    case AtEntry(k, st) =>
      if k < N(setup) then Some(m.(r := EntryStep(setup, m)))
      else if setup.job.cfg.ropts.dryRun then Some(m.(r := ReceiverReturned(true, st, k)))
      else Some(m.(r := Linking(0, 1, st, st.fs, MakeParent)))
    case Asking(k, st, plan) =>
      if m.s.SenderReturned? || k >= N(setup) then Some(m.(r := Fail(setup, m)))
      else if m.toS.Some? then None
      else
        var sig := SignatureFor(Entry(setup.job, k), plan);
        Some(m.(r := AskBlocked(k, CountSent(setup.job.cfg, sig, st), plan), toS := Some(sig)))
    case AskBlocked(k, st, plan) =>
      if m.toS.None? then Some(m.(r := AwaitingDelta(k, st, plan)))
      else if m.s.SenderReturned? then Some(m.(r := Fail(setup, m)))
      else None
    case AwaitingDelta(k, st, plan) =>
      (match m.toR
       case Some(msg) => if k < N(setup) then Some(m.(toR := None, r := DeltaStep(setup, m, msg))) else Some(m.(r := Fail(setup, m)))
       case None => if m.s.SenderReturned? then Some(m.(r := Fail(setup, m))) else None)
    case Placing(k, _, _, _, _, _, _) =>
      if k < N(setup) then Some(m.(r := PlaceStep(setup, m))) else Some(m.(r := Fail(setup, m)))
    case Linking(_, _, _, _, _) => Some(m.(r := LinkStep(setup, m)))
    case Stamping(k, _, _) =>
      if k <= N(setup) then Some(m.(r := StampStep(setup, m))) else Some(m.(r := Fail(setup, m)))
    case ReceiverReturned(_, _, _) => None
  }

  // ---- Failures from outside: an unreadable source, a full disk ----

  /** A pipe write in progress fails only by the other side closing, which SenderStep already covers. */
  function SenderFault(m: Machine): Option<Machine> {
    if m.s.Flushing? || m.s.SenderReturned? then None else Some(m.(s := SenderReturned(false)))
  }

  /** While filling, `extra` more bytes may reach the temporary file before the write fails. */
  function ReceiverFault(setup: Setup, m: Machine, extra: nat, renames: bool): Option<Machine> {
    if m.r.AskBlocked? || m.r.ReceiverReturned? then None
    else if m.r.Placing? && m.r.phase.Filling? && m.r.k < N(setup) then
      var cfg, e, r := setup.job.cfg, Entry(setup.job, m.r.k), m.r;
      var reached := if r.phase.n + extra <= |r.data| then r.phase.n + extra else |r.data|;
      var filled := Fill(r.fs, r.phase.tmp, r.data[..reached]);
      Some(m.(r := FailWith(setup, m, AbandonOrKeep(cfg, e, filled, r.phase.tmp, renames))))
    else Some(m.(r := Fail(setup, m)))
  }

  // ---- Every interleaving ----

  datatype Choice = RunSender | RunReceiver | BreakSender | BreakReceiver(extra: nat, renames: bool)

  /** One scheduling choice; choosing a blocked or returned side does nothing. */
  function Next(setup: Setup, m: Machine, c: Choice): Machine {
    var stepped := match c
      case RunSender => SenderStep(setup, m)
      case RunReceiver => ReceiverStep(setup, m)
      case BreakSender => SenderFault(m)
      case BreakReceiver(extra, renames) => ReceiverFault(setup, m, extra, renames);
    match stepped
    case Some(after) => after
    case None => m
  }

  function Exec(setup: Setup, schedule: seq<Choice>): Machine {
    if schedule == [] then Init(setup)
    else Next(setup, Exec(setup, schedule[..|schedule| - 1]), schedule[|schedule| - 1])
  }

  predicate BothReturned(m: Machine) {
    m.s.SenderReturned? && m.r.ReceiverReturned?
  }

  /** What syncLocal returns: the receiver's error first, then the sender's. */
  function Outcome(m: Machine): bool
    requires BothReturned(m)
  {
    m.r.ok && m.s.ok
  }
}
