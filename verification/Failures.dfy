/**
 * What the receiving side leaves on disk however it ends: the disk after the
 * last call that went through.
 */
module Failures {
  import opened Prelude
  import opened FileSystem
  import opened Entries
  import opened Attributes
  import opened Receiver
  import opened TempWrite
  import opened Disks
  import opened SyncRun
  import Delta
  import Replay

  function MadeOr(made: Result<FS, FsError>, fs: FS): FS {
    match made
    case Ok(after) => after
    case Err(_) => fs
  }

  function LocalLeaves(cfg: Config, e: FileEntry, fs: FS): FS {
    if cfg.ropts.dryRun || e.kind == Regular || (e.kind == Symlinked && !cfg.attrs.links) || Existing(fs, At(cfg, e)).Err? then fs
    else if e.kind == Directory then MadeOr(MkdirAll(cfg.proc, fs, At(cfg, e)), fs)
    else
      match MkdirAll(cfg.proc, fs, Parent(At(cfg, e)))
      case Err(_) => fs
      case Ok(made) => AttributesLeave(cfg.proc, made, e, At(cfg, e), cfg.attrs)
  }

  function CommitLeaves(cfg: Config, e: FileEntry, plan: Plan, data: Bytes, fs: FS, temp: (FS, Path) -> Path): FS {
    match MkdirAll(cfg.proc, fs, Parent(At(cfg, e)))
    case Err(_) => fs
    case Ok(made) =>
      if !MustWrite(plan, data) then AttributesLeave(cfg.proc, made, e, At(cfg, e), cfg.attrs)
      else
        match WriteLeaves(cfg, e, made, data, temp(made, At(cfg, e)), None)
        case Err(after) => after
        case Ok(written) => AttributesLeave(cfg.proc, DropPartial(cfg, e, plan, written), e, At(cfg, e), cfg.attrs)
  }

  function CompleteLeaves(cfg: Config, e: FileEntry, plan: Plan, ops: seq<Delta.Op>, fs: FS, temp: (FS, Path) -> Path): FS {
    match NewData(plan, ops)
    case Err(_) => fs
    case Ok(data) => if cfg.ropts.dryRun then fs else CommitLeaves(cfg, e, plan, data, fs, temp)
  }

  /** A message that should be the entry's delta. */
  function DeltaLeaves(cfg: Config, e: FileEntry, plan: Plan, msg: Message, fs: FS, temp: (FS, Path) -> Path): FS {
    match ReadDelta(cfg, e, msg)
    case Err(_) => fs
    case Ok(ops) => CompleteLeaves(cfg, e, plan, ops, fs, temp)
  }

  /** One entry, with what is left to read. */
  function EntryLeaves(cfg: Config, transfers: bool, e: FileEntry, fs: FS, inbox: seq<Message>, temp: (FS, Path) -> Path): FS {
    if !transfers then LocalLeaves(cfg, e, fs)
    else
      match Prepare(cfg, e, fs)
      case Err(_) => fs
      case Ok(plan) => if inbox == [] then fs else DeltaLeaves(cfg, e, plan, inbox[0], fs, temp)
  }

  /** The first k entries against an inbox, stopping at the first that fails. */
  function EntriesLeave(cfg: Config, inbox: seq<Message>, fs: FS, k: nat, temp: (FS, Path) -> Path): FS
    requires inbox != [] && inbox[0].FileListMsg? && k <= |inbox[0].list.entries|
  {
    if k == 0 then fs
    else
      match Replay.ReplayAfter(cfg, inbox, fs, k - 1)
      case Err(_) => EntriesLeave(cfg, inbox, fs, k - 1, temp)
      case Ok(tape) =>
        var e := inbox[0].list.entries[k - 1];
        EntryLeaves(cfg, Transfers(inbox[0].list, e), e, tape.st.fs, if tape.read <= |inbox| then inbox[tape.read..] else [], temp)
  }

  function LinksLeave(cfg: Config, groups: seq<Group>, k: nat, fs: FS): FS
    requires k <= |groups|
  {
    if k == 0 then fs
    else
      match LinkPass(cfg, groups, k - 1, fs)
      case Err(_) => LinksLeave(cfg, groups, k - 1, fs)
      case Ok(linked) =>
        match LinkGroup(cfg, groups[k - 1], |groups[k - 1]|, linked)
        case Err(_) => GroupLeaves(cfg, groups[k - 1], |groups[k - 1]|, linked)
        case Ok(after) => after
  }

  function StampsLeave(cfg: Config, entries: seq<FileEntry>, k: nat, fs: FS): FS
    requires k <= |entries|
  {
    if k == 0 then fs
    else if entries[k - 1].kind != Directory then StampsLeave(cfg, entries, k - 1, fs)
    else
      match ApplyAttributes(cfg.proc, fs, entries[k - 1], At(cfg, entries[k - 1]), cfg.attrs)
      case Err(_) => fs
      case Ok(stamped) => StampsLeave(cfg, entries, k - 1, stamped)
  }

  function PassesLeave(cfg: Config, list: FileList, fs: FS): FS {
    if cfg.ropts.dryRun then fs
    else
      match LinkPass(cfg, list.groups, |list.groups|, fs)
      case Err(_) => LinksLeave(cfg, list.groups, |list.groups|, fs)
      case Ok(linked) => StampsLeave(cfg, list.entries, |list.entries|, linked)
  }

  /** Receiver on any inbox, to whatever end it comes. */
  function ReceiverLeaves(cfg: Config, inbox: seq<Message>, fs: FS, temp: (FS, Path) -> Path): FS {
    if inbox == [] || !inbox[0].FileListMsg? then fs
    else
      match Replay.ReplayAfter(cfg, inbox, fs, |inbox[0].list.entries|)
      case Err(_) => EntriesLeave(cfg, inbox, fs, |inbox[0].list.entries|, temp)
      case Ok(tape) => PassesLeave(cfg, inbox[0].list, tape.st.fs)
  }

  // ---- Dry runs ----

  lemma {:induction false} DryReplayWritesNothing(cfg: Config, inbox: seq<Message>, fs: FS, k: nat)
    requires cfg.ropts.dryRun && inbox != [] && inbox[0].FileListMsg? && k <= |inbox[0].list.entries|
    ensures Replay.ReplayAfter(cfg, inbox, fs, k).Ok? ==> Replay.ReplayAfter(cfg, inbox, fs, k).value.st.fs == fs
  {
    hide Prepare, ReadDelta, NewData, Existing;
    if k > 0 {
      DryReplayWritesNothing(cfg, inbox, fs, k - 1);
    }
  }

  lemma {:induction false} DryEntriesWriteNothing(cfg: Config, inbox: seq<Message>, fs: FS, k: nat, temp: (FS, Path) -> Path)
    requires cfg.ropts.dryRun && inbox != [] && inbox[0].FileListMsg? && k <= |inbox[0].list.entries|
    ensures EntriesLeave(cfg, inbox, fs, k, temp) == fs
  {
    hide Prepare, ReadDelta, NewData, Replay.ReplayAfter;
    if k > 0 {
      DryReplayWritesNothing(cfg, inbox, fs, k - 1);
      DryEntriesWriteNothing(cfg, inbox, fs, k - 1, temp);
    }
  }

  /** Whatever a dry run is sent, and however it ends, the file system is as it was. */
  lemma DryRunWritesNothing(cfg: Config, inbox: seq<Message>, fs: FS, temp: (FS, Path) -> Path)
    requires cfg.ropts.dryRun
    ensures ReceiverLeaves(cfg, inbox, fs, temp) == fs
    ensures Replay.ReceiveAll(cfg, inbox, fs).Ok? ==> Replay.ReceiveAll(cfg, inbox, fs).value == fs
  {
    hide Replay.ReplayAfter, EntriesLeave;
    if inbox != [] && inbox[0].FileListMsg? {
      DryReplayWritesNothing(cfg, inbox, fs, |inbox[0].list.entries|);
      DryEntriesWriteNothing(cfg, inbox, fs, |inbox[0].list.entries|, temp);
    }
  }

  // ---- Success ----

  lemma {:induction false} StampsLeaveThePass(cfg: Config, entries: seq<FileEntry>, k: nat, fs: FS)
    requires k <= |entries| && DirPass(cfg, entries, k, fs).Ok?
    ensures StampsLeave(cfg, entries, k, fs) == DirPass(cfg, entries, k, fs).value
    decreases k
  {
    hide ApplyAttributes;
    if k > 0 {
      if entries[k - 1].kind != Directory {
        StampsLeaveThePass(cfg, entries, k - 1, fs);
      } else {
        StampsLeaveThePass(cfg, entries, k - 1, ApplyAttributes(cfg.proc, fs, entries[k - 1], At(cfg, entries[k - 1]), cfg.attrs).value);
      }
    }
  }

  /** Where the specification succeeds, what is left is its result. */
  lemma SuccessLeavesTheResult(cfg: Config, inbox: seq<Message>, fs: FS, temp: (FS, Path) -> Path)
    requires Replay.ReceiveAll(cfg, inbox, fs).Ok?
    ensures ReceiverLeaves(cfg, inbox, fs, temp) == Replay.ReceiveAll(cfg, inbox, fs).value
  {
    hide Replay.ReplayAfter, LinkPass, DirPass, StampsLeave;
    var st := Replay.ReplayAfter(cfg, inbox, fs, |inbox[0].list.entries|).value.st;
    if !cfg.ropts.dryRun {
      var linked := LinkPass(cfg, inbox[0].list.groups, |inbox[0].list.groups|, st.fs).value;
      StampsLeaveThePass(cfg, inbox[0].list.entries, |inbox[0].list.entries|, linked);
    }
  }
}
