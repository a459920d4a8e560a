/**
 * What the receiving side does with each entry of the list, and what the
 * sending side answers (internal/pipeline/receiver.go, sender.go, partial.go).
 * Each function is one step between two channel operations.
 */
module Receiver {
  import opened Prelude
  import opened FileSystem
  import opened Entries
  import opened Attributes
  import opened Itemize
  import opened Blocks
  import opened Delta
  import Wire

  datatype Action = AppendNone | AppendTail | AppendSkip

  datatype Message =
    | FileListMsg(list: FileList)
    | SignatureMsg(path: Path, sig: Signature, action: Action)
    | DeltaMsg(path: Path, delta: Wire.WireDelta)
    | ErrorMsg

  datatype Failure =
    | System(code: FsError)
    | NoTarget
    | BadDelta(cause: DeltaError)
    | BadWire(wireCause: Wire.WireError)
    | OutOfOrder
    | WrongFrame
    | PeerError
    | Closed
    | Diminished

  /** Everything fixed for one transfer. wireSize is the length of a message's frame. */
  datatype Config = Config(
    proc: Process, digest: Bytes -> Bytes, codec: Wire.Codec, copts: Wire.CompressOptions, wireSize: Message -> nat,
    dest: Path, ownerKnown: bool, attrs: AttrOptions, ropts: ReceiverOptions)

  datatype Stats = Stats(
    regular: nat, directories: nat, symlinks: nat,
    createdRegular: nat, createdDirectories: nat, createdSymlinks: nat,
    transferred: nat, totalSize: int, transferredSize: int, literal: nat, matched: nat,
    bytesSent: nat, bytesReceived: nat)

  const NO_STATS := Stats(0, 0, 0, 0, 0, 0, 0, 0, 0, 0, 0, 0, 0)

  datatype State = State(fs: FS, stats: Stats, lines: seq<string>)

  function At(cfg: Config, e: FileEntry): Path {
    cfg.dest + e.path
  }

  /** The state lstat found, or the failure that stops the run. */
  function Existing(fs: FS, p: Path): Result<Option<Inode>, Failure> {
    match Lstat(fs, p)
    case Present(inode) => Ok(Some(inode))
    case Missing => Ok(None)
    case Blocked => Err(System(ENOTDIR))
  }

  function FromSystem(r: Result<FS, FsError>): Result<FS, Failure> {
    match r
    case Ok(fs) => Ok(fs)
    case Err(code) => Err(System(code))
  }

  function FromAttr(r: Result<FS, AttrError>): Result<FS, Failure> {
    match r
    case Ok(fs) => Ok(fs)
    case Err(NoLinkTarget) => Err(NoTarget)
    case Err(SystemCall(code)) => Err(System(code))
  }

  // ---- Directories, symlinks and secondary members ----

  function ReceiveDir(cfg: Config, e: FileEntry, st: State): Result<State, Failure> {
    match Existing(st.fs, At(cfg, e))
    case Err(x) => Err(x)
    case Ok(was) =>
      match if cfg.ropts.dryRun then Ok(st.fs) else MkdirAll(cfg.proc, st.fs, At(cfg, e))
      case Err(code) => Err(System(code))
      case Ok(made) =>
        var stats := st.stats.(directories := st.stats.directories + 1,
                               createdDirectories := st.stats.createdDirectories + if was.None? then 1 else 0);
        Ok(State(made, stats, st.lines + Report(cfg.ropts, ItemizeDir(e, was, cfg.ownerKnown, cfg.attrs), e)))
  }

  /** The file-system part of a symlink entry. */
  function PlaceSymlink(cfg: Config, e: FileEntry, fs: FS): Result<FS, Failure> {
    match MkdirAll(cfg.proc, fs, Parent(At(cfg, e)))
    case Err(code) => Err(System(code))
    case Ok(made) => FromAttr(ApplyAttributes(cfg.proc, made, e, At(cfg, e), cfg.attrs))
  }

  function ReceiveSymlink(cfg: Config, e: FileEntry, st: State): Result<State, Failure> {
    if !cfg.attrs.links then Ok(st)
    else
      match Existing(st.fs, At(cfg, e))
      case Err(x) => Err(x)
      case Ok(was) =>
        match if cfg.ropts.dryRun then Ok(st.fs) else PlaceSymlink(cfg, e, st.fs)
        case Err(x) => Err(x)
        case Ok(placed) =>
          var stats := st.stats.(symlinks := st.stats.symlinks + 1,
                                 createdSymlinks := st.stats.createdSymlinks + if was.None? then 1 else 0);
          Ok(State(placed, stats, st.lines + Report(cfg.ropts, ItemizeSymlink(e, was, cfg.ownerKnown, cfg.attrs), e)))
  }

  /** An entry that needs no exchange with the sender. */
  function ReceiveLocal(cfg: Config, e: FileEntry, st: State): Result<State, Failure> {
    match e.kind
    case Directory => ReceiveDir(cfg, e, st)
    case Symlinked => ReceiveSymlink(cfg, e, st)
    case Regular => Ok(st.(lines := st.lines + Report(cfg.ropts, Some(HARD_LINK_CODE), e)))
  }

  // ---- Regular files, first half: up to the signature ----

  function PartialPath(p: Path, dir: PartialDir, rel: Path): Path {
    match dir
    case Absolute(d) => d + rel
    case Relative(d) => Parent(p) + d + [Base(p)]
  }

  function LoadPartialBasis(cfg: Config, e: FileEntry, fs: FS): Option<Bytes> {
    match cfg.ropts.partialDir
    case None => None
    case Some(dir) =>
      match ReadFile(fs, PartialPath(At(cfg, e), dir, e.path))
      case Ok(data) => data
      case Err(_) => None
  }

  /** was: what lstat found. basis: the old data the signature is taken of. */
  datatype Plan = Plan(was: Option<Inode>, usedPartial: bool, basis: Bytes, action: Action, sig: Signature)

  function ChooseAction(cfg: Config, e: FileEntry, existed: bool, basis: Bytes): Action {
    if !cfg.ropts.AppendMode() || !existed then AppendNone
    else if |basis| >= e.size then AppendSkip
    else if cfg.ropts.appendVerify then AppendNone
    else AppendTail
  }

  function ChooseSignature(cfg: Config, action: Action, basis: Bytes): Signature {
    match action
    case AppendNone => Sign(cfg.digest, basis, DEFAULT_BLOCK_SIZE)
    case AppendSkip => Signature(0, [])
    case AppendTail => Signature(|basis|, [])
  }

  function OrEmpty(data: Option<Bytes>): Bytes {
    match data
    case None => []
    case Some(bytes) => bytes
  }

  function Prepare(cfg: Config, e: FileEntry, fs: FS): Result<Plan, Failure> {
    match Existing(fs, At(cfg, e))
    case Err(x) => Err(x)
    case Ok(was) =>
      var partialBasis := if cfg.ropts.AppendMode() then None else LoadPartialBasis(cfg, e, fs);
      match if partialBasis.Some? then Ok(partialBasis) else ReadFile(fs, At(cfg, e))
      case Err(code) => Err(System(code))
      case Ok(data) =>
        var action := ChooseAction(cfg, e, was.Some?, OrEmpty(data));
        Ok(Plan(was, partialBasis.Some?, OrEmpty(data), action, ChooseSignature(cfg, action, OrEmpty(data))))
  }

  function SignatureFor(e: FileEntry, plan: Plan): Message {
    SignatureMsg(e.path, plan.sig, plan.action)
  }

  // ---- The sender's answer ----

  /** Appends only the tail past what the receiver already holds. */
  function AppendTailOps(trusted: int, data: Bytes): Result<seq<Op>, Failure>
    requires 0 <= trusted
  {
    if trusted > |data| then Err(Diminished)
    else
      Ok((if trusted > 0 then [Copy(0)] else []) + (if data[trusted..] != [] then [Data(data[trusted..])] else []))
  }

  function ReplyOps(cfg: Config, src: map<Path, Bytes>, e: FileEntry, sig: Signature, action: Action): Result<seq<Op>, Failure> {
    if action == AppendSkip then Ok([])
    else if e.path !in src then Err(System(ENOENT))
    else if action == AppendTail then
      if sig.blockSize < 0 then Err(Diminished) else AppendTailOps(sig.blockSize, src[e.path])
    else Ok(DeltaOf(cfg.digest, sig, src[e.path]))
  }

  /** The sender's whole step: check the path, compute the delta, put it in wire form. */
  function Reply(cfg: Config, src: map<Path, Bytes>, e: FileEntry, msg: Message): Result<Message, Failure> {
    match msg
    case SignatureMsg(path, sig, action) =>
      if path != e.path then Err(OutOfOrder)
      else
        (match ReplyOps(cfg, src, e, sig, action)
         case Err(x) => Err(x)
         case Ok(ops) => Ok(DeltaMsg(e.path, Wire.Encode(cfg.codec, ops, Render(e.path), cfg.copts))))
    case ErrorMsg => Err(PeerError)
    case _ => Err(WrongFrame)
  }

  // ---- Regular files, second half: from the delta on ----

  function ReadDelta(cfg: Config, e: FileEntry, msg: Message): Result<seq<Op>, Failure> {
    match msg
    case DeltaMsg(path, delta) =>
      (match Wire.Decode(cfg.codec, delta)
       case Err(x) => Err(BadWire(x))
       case Ok(ops) => if path != e.path then Err(OutOfOrder) else Ok(ops))
    case ErrorMsg => Err(PeerError)
    case _ => Err(WrongFrame)
  }

  function NewData(plan: Plan, ops: seq<Op>): Result<Bytes, Failure> {
    if plan.action == AppendSkip then Ok(plan.basis)
    else
      match Apply(plan.basis, ops, plan.sig.blockSize)
      case Ok(data) => Ok(data)
      case Err(x) => Err(BadDelta(x))
  }

  predicate ContentChanged(plan: Plan, data: Bytes) {
    plan.action != AppendSkip && plan.basis != data
  }

  predicate MustWrite(plan: Plan, data: Bytes) {
    plan.action != AppendSkip && (plan.was.None? || ContentChanged(plan, data))
  }

  /** A used partial file is removed on success; a failure to do so is ignored. */
  function DropPartial(cfg: Config, e: FileEntry, plan: Plan, fs: FS): FS {
    if plan.usedPartial && cfg.ropts.partialDir.Some? then
      match Remove(cfg.proc, fs, PartialPath(At(cfg, e), cfg.ropts.partialDir.value, e.path))
      case Ok(gone) => gone
      case Err(_) => fs
    else fs
  }

  function WriteContent(cfg: Config, e: FileEntry, plan: Plan, data: Bytes, fs: FS): Result<FS, Failure> {
    if !MustWrite(plan, data) then Ok(fs)
    else
      match Install(cfg.proc, fs, At(cfg, e), data)
      case Err(code) => Err(System(code))
      case Ok(installed) => Ok(DropPartial(cfg, e, plan, installed))
  }

  /** The file-system part of a regular entry. */
  function Commit(cfg: Config, e: FileEntry, plan: Plan, data: Bytes, fs: FS): Result<FS, Failure> {
    match MkdirAll(cfg.proc, fs, Parent(At(cfg, e)))
    case Err(code) => Err(System(code))
    case Ok(made) =>
      match WriteContent(cfg, e, plan, data, made)
      case Err(x) => Err(x)
      case Ok(written) => FromAttr(ApplyAttributes(cfg.proc, written, e, At(cfg, e), cfg.attrs))
  }

  /** lstat's size of what was there; only a file's is ever looked at. */
  function SizeOf(was: Option<Inode>): int {
    if was.Some? && was.value.File? then |was.value.content| else 0
  }

  function CountRegular(e: FileEntry, plan: Plan, ops: seq<Op>, data: Bytes, stats: Stats): Stats {
    var write := MustWrite(plan, data);
    stats.(
      regular := stats.regular + 1,
      totalSize := stats.totalSize + e.size,
      literal := stats.literal + LiteralBytes(ops),
      matched := stats.matched + MatchedBytes(ops, plan.sig.blockSize, |plan.basis|),
      createdRegular := stats.createdRegular + (if plan.was.None? then 1 else 0),
      transferred := stats.transferred + (if write then 1 else 0),
      transferredSize := stats.transferredSize + (if write then e.size else 0))
  }

  function Complete(cfg: Config, e: FileEntry, plan: Plan, ops: seq<Op>, st: State): Result<State, Failure> {
    match NewData(plan, ops)
    case Err(x) => Err(x)
    case Ok(data) =>
      match if cfg.ropts.dryRun then Ok(st.fs) else Commit(cfg, e, plan, data, st.fs)
      case Err(x) => Err(x)
      case Ok(fs) =>
        var code := ItemizeFile(e, plan.was, SizeOf(plan.was), cfg.ownerKnown, ContentChanged(plan, data), cfg.attrs);
        Ok(State(fs, CountRegular(e, plan, ops, data, st.stats), st.lines + Report(cfg.ropts, code, e)))
  }

  // ---- One regular entry across both sides ----

  function CountSent(cfg: Config, msg: Message, st: State): State {
    st.(stats := st.stats.(bytesSent := st.stats.bytesSent + cfg.wireSize(msg)))
  }

  function CountReceived(cfg: Config, msg: Message, st: State): State {
    st.(stats := st.stats.(bytesReceived := st.stats.bytesReceived + cfg.wireSize(msg)))
  }

  /** The receiver's whole reaction to the message that should be this entry's delta. */
  function TakeDelta(cfg: Config, e: FileEntry, plan: Plan, msg: Message, st: State): Result<State, Failure> {
    match ReadDelta(cfg, e, msg)
    case Err(x) => Err(x)
    case Ok(ops) => Complete(cfg, e, plan, ops, CountReceived(cfg, msg, st))
  }

  // ---- The two final passes ----

  function LinkMember(cfg: Config, first: Path, member: Path, fs: FS): Result<FS, Failure> {
    match MkdirAll(cfg.proc, fs, Parent(cfg.dest + member))
    case Err(code) => Err(System(code))
    case Ok(made) =>
      match Remove(cfg.proc, made, cfg.dest + member)
      case Err(code) => Err(System(code))
      case Ok(gone) => FromSystem(LinkTo(cfg.proc, gone, cfg.dest + first, cfg.dest + member))
  }

  /** ApplyHardLinks on one group: members 1 up to k relinked to member 0. */
  function LinkGroup(cfg: Config, g: Group, k: nat, fs: FS): Result<FS, Failure>
    requires k <= |g|
  {
    if k <= 1 then Ok(fs)
    else
      match LinkGroup(cfg, g, k - 1, fs)
      case Err(x) => Err(x)
      case Ok(linked) => LinkMember(cfg, g[0], g[k - 1], linked)
  }

  function LinkPass(cfg: Config, groups: seq<Group>, k: nat, fs: FS): Result<FS, Failure>
    requires k <= |groups|
  {
    if k == 0 then Ok(fs)
    else
      match LinkPass(cfg, groups, k - 1, fs)
      case Err(x) => Err(x)
      case Ok(linked) => LinkGroup(cfg, groups[k - 1], |groups[k - 1]|, linked)
  }

  /** Directory attributes from entry k - 1 down to entry 0: children before parents. */
  function DirPass(cfg: Config, entries: seq<FileEntry>, k: nat, fs: FS): Result<FS, Failure>
    requires k <= |entries|
  {
    if k == 0 then Ok(fs)
    else if entries[k - 1].kind != Directory then DirPass(cfg, entries, k - 1, fs)
    else
      match FromAttr(ApplyAttributes(cfg.proc, fs, entries[k - 1], At(cfg, entries[k - 1]), cfg.attrs))
      case Err(x) => Err(x)
      case Ok(stamped) => DirPass(cfg, entries, k - 1, stamped)
  }
}
