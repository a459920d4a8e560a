/**
 * Receiver and Sender as the source runs them: loops over the list that read
 * and write a connection, count, and change the disk (internal/pipeline/
 * receiver.go, sender.go, stats.go). Each is proved against its specification.
 */
module Sides {
  import opened Prelude
  import opened FileSystem
  import opened Entries
  import opened Attributes
  import opened Itemize
  import opened Blocks
  import opened Delta
  import opened Receiver
  import opened TempWrite
  import opened Disks
  import opened SyncRun
  import opened Failures
  import Replay
  import Contents
  import Effects
  import Wire

  // ---- The connection ----

  /** One side's end: what it has still to read, and what it has written. */
  class Connection {
    var inbox: seq<Message>
    var outbox: seq<Message>

    method Send(msg: Message)
      modifies this
      ensures outbox == old(outbox) + [msg] && inbox == old(inbox)
    {
      outbox := outbox + [msg];
    }

    method Receive() returns (r: Result<Message, Failure>)
      modifies this
      ensures outbox == old(outbox)
      ensures old(inbox) == [] ==> r == Err(Closed) && inbox == []
      ensures old(inbox) != [] ==> r == Ok(old(inbox)[0]) && inbox == old(inbox)[1..]
    {
      if inbox == [] {
        return Err(Closed);
      }
      r, inbox := Ok(inbox[0]), inbox[1..];
    }
  }

  /** countingReadWriter: the same connection, with what crossed it added up. */
  class Counted {
    const rw: Connection
    const size: Message -> nat
    var read: nat
    var written: nat

    constructor (rw: Connection, size: Message -> nat)
      ensures this.rw == rw && this.size == size && read == 0 && written == 0
    {
      this.rw, this.size := rw, size;
      read, written := 0, 0;
    }

    method Send(msg: Message)
      modifies this, rw
      ensures rw.outbox == old(rw.outbox) + [msg] && rw.inbox == old(rw.inbox)
      ensures written == old(written) + size(msg) && read == old(read)
    {
      rw.Send(msg);
      written := written + size(msg);
    }

    method Receive() returns (r: Result<Message, Failure>)
      modifies this, rw
      ensures rw.outbox == old(rw.outbox) && written == old(written)
      ensures old(rw.inbox) == [] ==> r == Err(Closed) && rw.inbox == [] && read == old(read)
      ensures old(rw.inbox) != [] ==> r == Ok(old(rw.inbox)[0]) && rw.inbox == old(rw.inbox)[1..] && read == old(read) + size(old(rw.inbox)[0])
    {
      r := rw.Receive();
      if r.Ok? {
        read := read + size(r.value);
      }
    }
  }

  // ---- The receiving side's running totals ----

  /** receiveContext, with the lines written so far. */
  class Context {
    var stats: Stats
    var lines: seq<string>

    constructor ()
      ensures stats == NO_STATS && lines == []
    {
      stats, lines := NO_STATS, [];
    }

    /** reportChange. */
    method ReportChange(ropts: ReceiverOptions, code: Option<string>, e: FileEntry)
      modifies this`lines
      ensures lines == old(lines) + Report(ropts, code, e)
    {
      var link := if e.kind == Symlinked && e.target != "" then " -> " + e.target else "";
      if (!ropts.itemize && !ropts.verbose) || code.None? {
        lines := lines + [];
      } else if ropts.itemize {
        lines := lines + [code.value + " " + Render(e.path) + link];
      } else {
        lines := lines + [Render(e.path) + link];
      }
    }
  }

  /** The state the specification speaks of. */
  function View(disk: Disk, ctx: Context, conn: Counted): State
    reads disk, ctx, conn
  {
    State(disk.fs, ctx.stats.(bytesSent := conn.written, bytesReceived := conn.read), ctx.lines)
  }

  /** receiveDir. */
  method ReceiveDirectory(disk: Disk, ctx: Context, conn: Counted, cfg: Config, e: FileEntry) returns (ok: bool)
    requires disk.proc == cfg.proc
    modifies disk, ctx
    ensures ok == ReceiveDir(cfg, e, old(View(disk, ctx, conn))).Ok?
    ensures ok ==> View(disk, ctx, conn) == ReceiveDir(cfg, e, old(View(disk, ctx, conn))).value
    ensures e.kind == Directory ==> disk.fs == LocalLeaves(cfg, e, old(disk.fs))
  {
    hide MkdirAll, Lstat, ItemizeDir;
    var was := Existing(disk.fs, At(cfg, e));
    if was.Err? {
      return false;
    }
    if !cfg.ropts.dryRun {
      var made := MkdirAll(cfg.proc, disk.fs, At(cfg, e));
      ok := disk.Call(made);
      if !ok {
        return;
      }
    }
    ctx.stats := ctx.stats.(directories := ctx.stats.directories + 1);
    if was.value.None? {
      ctx.stats := ctx.stats.(createdDirectories := ctx.stats.createdDirectories + 1);
    }
    ctx.ReportChange(cfg.ropts, ItemizeDir(e, was.value, cfg.ownerKnown, cfg.attrs), e);
    return true;
  }

  /** receiveSymlink. */
  method ReceiveLink(disk: Disk, ctx: Context, conn: Counted, cfg: Config, e: FileEntry) returns (ok: bool)
    requires disk.proc == cfg.proc
    modifies disk, ctx
    ensures ok == ReceiveSymlink(cfg, e, old(View(disk, ctx, conn))).Ok?
    ensures ok ==> View(disk, ctx, conn) == ReceiveSymlink(cfg, e, old(View(disk, ctx, conn))).value
    ensures e.kind == Symlinked ==> disk.fs == LocalLeaves(cfg, e, old(disk.fs))
  {
    hide MkdirAll, Lstat, ItemizeSymlink, ApplyAttributes;
    if !cfg.attrs.links {
      return true;
    }
    var was := Existing(disk.fs, At(cfg, e));
    if was.Err? {
      return false;
    }
    if !cfg.ropts.dryRun {
      var made := MkdirAll(cfg.proc, disk.fs, Parent(At(cfg, e)));
      ok := disk.Call(made);
      if !ok {
        return;
      }
      var applied := Disks.Apply(disk, e, At(cfg, e), cfg.attrs);
      if applied.Err? {
        return false;
      }
    }
    ctx.stats := ctx.stats.(symlinks := ctx.stats.symlinks + 1);
    if was.value.None? {
      ctx.stats := ctx.stats.(createdSymlinks := ctx.stats.createdSymlinks + 1);
    }
    ctx.ReportChange(cfg.ropts, ItemizeSymlink(e, was.value, cfg.ownerKnown, cfg.attrs), e);
    return true;
  }

  // ---- A regular file ----

  /** The first half of receiveRegularFile, up to the signature. */
  method PrepareFile(disk: Disk, cfg: Config, e: FileEntry) returns (r: Result<Plan, Failure>)
    ensures r == Prepare(cfg, e, disk.fs)
  {
    hide Lstat, Sign;
    var was := Existing(disk.fs, At(cfg, e));
    if was.Err? {
      return Err(was.error);
    }
    var usedPartial, data := false, None;
    if !cfg.ropts.AppendMode() {
      data := LoadPartialBasis(cfg, e, disk.fs);
      usedPartial := data.Some?;
    }
    if !usedPartial {
      var found := ReadFile(disk.fs, At(cfg, e));
      if found.Err? {
        return Err(System(found.error));
      }
      data := found.value;
    }
    var basis := OrEmpty(data);
    var action, sig := AppendNone, Signature(0, []);
    if !cfg.ropts.AppendMode() || was.value.None? {
      sig := GenerateSignatureWithBlockSize(cfg.digest, basis, DEFAULT_BLOCK_SIZE);
    } else if |basis| >= e.size {
      action := AppendSkip;
    } else if cfg.ropts.appendVerify {
      sig := GenerateSignatureWithBlockSize(cfg.digest, basis, DEFAULT_BLOCK_SIZE);
    } else {
      action, sig := AppendTail, Signature(|basis|, []);
    }
    return Ok(Plan(was.value, usedPartial, basis, action, sig));
  }

  /** The file-system half of receiveRegularFile. */
  method CommitFile(disk: Disk, cfg: Config, e: FileEntry, plan: Plan, data: Bytes, temp: (FS, Path) -> Path, progress: bool) returns (ok: bool)
    requires disk.proc == cfg.proc && Valid(disk.fs) && FindsNames(cfg.proc, temp)
    modifies disk
    ensures ok == Commit(cfg, e, plan, data, old(disk.fs)).Ok?
    ensures ok ==> disk.fs == Commit(cfg, e, plan, data, old(disk.fs)).value
    ensures disk.fs == CommitLeaves(cfg, e, plan, data, old(disk.fs), temp)
  {
    hide Valid, WorksOn, MkdirAll, Install, OpenTemp, Fill, RenameOnto, AbandonOrKeep, ApplyAttributes, FindsNames, WriteLeaves;
    var p := At(cfg, e);
    var made := MkdirAll(cfg.proc, disk.fs, Parent(p));
    ok := disk.Call(made);
    if !ok {
      return;
    }
    if MustWrite(plan, data) {
      var tmp := temp(disk.fs, p);
      MkdirAllWorks(cfg.proc, old(disk.fs), Parent(p), Parent(p));
      WritesOrNot(cfg, e, made.value, data, temp);
      ok := WriteFile(disk, cfg, e, data, tmp, progress, None);
      if !ok {
        return;
      }
      disk.fs := DropPartial(cfg, e, plan, disk.fs);
    }
    var applied := Disks.Apply(disk, e, p, cfg.attrs);
    return applied.Ok?;
  }

  lemma WritesOrNot(cfg: Config, e: FileEntry, fs: FS, data: Bytes, temp: (FS, Path) -> Path)
    requires Valid(fs) && IsDir(fs, Parent(At(cfg, e))) && FindsNames(cfg.proc, temp)
    ensures var written := WriteLeaves(cfg, e, fs, data, temp(fs, At(cfg, e)), None);
      && (written.Ok? <==> Install(cfg.proc, fs, At(cfg, e), data).Ok?)
      && (written.Ok? ==> written.value == Install(cfg.proc, fs, At(cfg, e), data).value)
  {
    hide Valid, OpenTemp, Fill, AbandonOrKeep;
    if At(cfg, e) != [] {
      hide RenameOnto, Install, WriteLeaves;
      WriteIsInstall(cfg, e, fs, data, temp(fs, At(cfg, e)), None);
    }
  }

  /** What receiveRegularFile counts. */
  method CountFile(ctx: Context, e: FileEntry, plan: Plan, ops: seq<Op>, data: Bytes)
    modifies ctx`stats
    ensures ctx.stats == CountRegular(e, plan, ops, data, old(ctx.stats))
  {
    hide LiteralBytes, MatchedBytes;
    var literal, matched := DeltaByteCounts(ops, plan.sig.blockSize, |plan.basis|);
    ctx.stats := ctx.stats.(regular := ctx.stats.regular + 1, totalSize := ctx.stats.totalSize + e.size,
                            literal := ctx.stats.literal + literal, matched := ctx.stats.matched + matched);
    if plan.was.None? {
      ctx.stats := ctx.stats.(createdRegular := ctx.stats.createdRegular + 1);
    }
    if MustWrite(plan, data) {
      ctx.stats := ctx.stats.(transferred := ctx.stats.transferred + 1, transferredSize := ctx.stats.transferredSize + e.size);
    }
  }

  /** The second half of receiveRegularFile: rebuild, count, write, report. */
  method CompleteFile(disk: Disk, ctx: Context, conn: Counted, cfg: Config, e: FileEntry, plan: Plan, ops: seq<Op>, temp: (FS, Path) -> Path, progress: bool) returns (ok: bool)
    requires disk.proc == cfg.proc && Valid(disk.fs) && FindsNames(cfg.proc, temp)
    modifies disk, ctx
    ensures ok == Complete(cfg, e, plan, ops, old(View(disk, ctx, conn))).Ok?
    ensures ok ==> View(disk, ctx, conn) == Complete(cfg, e, plan, ops, old(View(disk, ctx, conn))).value
    ensures disk.fs == CompleteLeaves(cfg, e, plan, ops, old(disk.fs), temp)
  {
    hide Commit, Valid, FindsNames, ItemizeFile, CountRegular, Delta.Apply, Report;
    var data := plan.basis;
    if plan.action != AppendSkip {
      var rebuilt := ApplyDelta(plan.basis, ops, plan.sig);
      if rebuilt.Err? {
        return false;
      }
      data := rebuilt.value;
    }
    CountFile(ctx, e, plan, ops, data);
    CountsApart(e, plan, ops, data, old(ctx.stats), conn.written, conn.read);
    if !cfg.ropts.dryRun {
      ok := CommitFile(disk, cfg, e, plan, data, temp, progress);
      if !ok {
        return;
      }
    }
    ctx.ReportChange(cfg.ropts, ItemizeFile(e, plan.was, SizeOf(plan.was), cfg.ownerKnown, ContentChanged(plan, data), cfg.attrs), e);
    return true;
  }

  /** What files count and what crosses the connection are kept apart. */
  lemma CountsApart(e: FileEntry, plan: Plan, ops: seq<Op>, data: Bytes, stats: Stats, sent: nat, received: nat)
    ensures CountRegular(e, plan, ops, data, stats).(bytesSent := sent, bytesReceived := received)
         == CountRegular(e, plan, ops, data, stats.(bytesSent := sent, bytesReceived := received))
  {
  }

  /** The delta frame, decoded and checked. */
  method TakeOps(cfg: Config, e: FileEntry, msg: Message) returns (r: Result<seq<Op>, Failure>)
    ensures r == ReadDelta(cfg, e, msg)
  {
    if msg.ErrorMsg? {
      return Err(PeerError);
    }
    if !msg.DeltaMsg? {
      return Err(WrongFrame);
    }
    var decoded := Wire.FromWireDeltaOps(cfg.codec, msg.delta);
    if decoded.Err? {
      return Err(BadWire(decoded.error));
    }
    if msg.path != e.path {
      return Err(OutOfOrder);
    }
    return Ok(decoded.value);
  }

  /** receiveRegularFile: ask, wait for the delta, and complete the file. */
  method ReceiveRegular(disk: Disk, ctx: Context, conn: Counted, cfg: Config, e: FileEntry, temp: (FS, Path) -> Path, progress: bool) returns (ok: bool)
    requires disk.proc == cfg.proc && Valid(disk.fs) && FindsNames(cfg.proc, temp) && conn.size == cfg.wireSize
    modifies disk, ctx, conn, conn.rw
    ensures Prepare(cfg, e, old(disk.fs)).Err? ==> !ok
    ensures Prepare(cfg, e, old(disk.fs)).Ok? ==>
      var sig := SignatureFor(e, Prepare(cfg, e, old(disk.fs)).value);
      conn.rw.outbox == old(conn.rw.outbox) + [sig] && (old(conn.rw.inbox) == [] ==> !ok)
    ensures Prepare(cfg, e, old(disk.fs)).Ok? && old(conn.rw.inbox) != [] ==>
      var plan := Prepare(cfg, e, old(disk.fs)).value;
      var taken := TakeDelta(cfg, e, plan, old(conn.rw.inbox)[0], CountSent(cfg, SignatureFor(e, plan), old(View(disk, ctx, conn))));
      && ok == taken.Ok?
      && conn.rw.inbox == old(conn.rw.inbox)[1..]
      && (ok ==> View(disk, ctx, conn) == taken.value)
    ensures disk.fs == EntryLeaves(cfg, true, e, old(disk.fs), old(conn.rw.inbox), temp)
  {
    hide Prepare, Complete, Valid, FindsNames, ReadDelta;
    var prepared := PrepareFile(disk, cfg, e);
    if prepared.Err? {
      return false;
    }
    var sig := SignatureFor(e, prepared.value);
    conn.Send(sig);
    var got := conn.Receive();
    if got.Err? {
      return false;
    }
    var read := TakeOps(cfg, e, got.value);
    if read.Err? {
      return false;
    }
    assert View(disk, ctx, conn) == CountReceived(cfg, got.value, CountSent(cfg, sig, old(View(disk, ctx, conn))));
    ok := CompleteFile(disk, ctx, conn, cfg, e, prepared.value, read.value, temp, progress);
  }

  // ---- Receiver ----

  /** The map of every group member but the first. */
  method SecondaryPaths(groups: seq<Group>) returns (secondary: set<Path>)
    ensures forall p :: p in secondary <==> Secondary(groups, p)
  {
    secondary := {};
    for g := 0 to |groups|
      invariant forall p :: p in secondary <==> Secondary(groups[..g], p)
    {
      var added := secondary;
      if groups[g] != [] {
        for n := 1 to |groups[g]|
          invariant forall p :: p in added <==> p in secondary || p in groups[g][1..n]
        {
          added := added + {groups[g][n]};
          assert groups[g][1..n + 1] == groups[g][1..n] + [groups[g][n]];
        }
        assert groups[g][1..|groups[g]|] == groups[g][1..];
      }
      SecondaryOfMore(groups, g);
      secondary := added;
    }
    assert groups[..|groups|] == groups;
  }

  lemma SecondaryOfMore(groups: seq<Group>, g: nat)
    requires g < |groups|
    ensures forall p :: Secondary(groups[..g + 1], p) <==> Secondary(groups[..g], p) || (groups[g] != [] && p in groups[g][1..])
  {
    var less, more := groups[..g], groups[..g + 1];
    forall p ensures Secondary(more, p) <==> Secondary(less, p) || (groups[g] != [] && p in groups[g][1..]) {
      if Secondary(less, p) {
        var h :| 0 <= h < |less| && less[h] != [] && p in less[h][1..];
        assert more[h] == less[h];
      }
      if groups[g] != [] && p in groups[g][1..] {
        assert more[g] == groups[g];
      }
      if Secondary(more, p) {
        var h :| 0 <= h < |more| && more[h] != [] && p in more[h][1..];
        if h < g {
          assert less[h] == more[h];
        }
      }
    }
  }

  function DirectoriesOf(entries: seq<FileEntry>): seq<FileEntry> {
    if entries == [] then []
    else
      var init, last := DirectoriesOf(entries[..|entries| - 1]), entries[|entries| - 1];
      if last.kind == Directory then init + [last] else init
  }

  /** Going back over the collected directories is going back over the list. */
  lemma {:induction false} CollectedPass(cfg: Config, entries: seq<FileEntry>, k: nat, dirs: seq<FileEntry>, fs: FS)
    requires k <= |entries| && |DirectoriesOf(entries[..k])| <= |dirs| && DirectoriesOf(entries[..k]) == dirs[..|DirectoriesOf(entries[..k])|]
    requires forall i :: 0 <= i < |dirs| ==> dirs[i].kind == Directory
    ensures DirPass(cfg, dirs, |DirectoriesOf(entries[..k])|, fs) == DirPass(cfg, entries, k, fs)
    ensures StampsLeave(cfg, dirs, |DirectoriesOf(entries[..k])|, fs) == StampsLeave(cfg, entries, k, fs)
    decreases k
  {
    hide ApplyAttributes;
    if k > 0 {
      var before := entries[..k - 1];
      assert entries[..k][..k - 1] == before && entries[..k][k - 1] == entries[k - 1];
      var n := |DirectoriesOf(before)|;
      if entries[k - 1].kind == Directory {
        assert dirs[..n + 1][..n] == dirs[..n] && dirs[..n + 1][n] == dirs[n];
        var e, p := entries[k - 1], At(cfg, entries[k - 1]);
        match FromAttr(ApplyAttributes(cfg.proc, fs, e, p, cfg.attrs)) {
          case Ok(stamped) => CollectedPass(cfg, entries, k - 1, dirs, stamped);
          case Err(_) =>
        }
      } else {
        CollectedPass(cfg, entries, k - 1, dirs, fs);
      }
    }
  }

  lemma {:induction false} OnlyDirectories(entries: seq<FileEntry>)
    ensures forall i :: 0 <= i < |DirectoriesOf(entries)| ==> DirectoriesOf(entries)[i].kind == Directory
  {
    if entries != [] {
      OnlyDirectories(entries[..|entries| - 1]);
    }
  }

  /** Directory attributes, deepest first. */
  method StampDirectories(disk: Disk, cfg: Config, entries: seq<FileEntry>, dirs: seq<FileEntry>) returns (ok: bool)
    requires disk.proc == cfg.proc && dirs == DirectoriesOf(entries)
    modifies disk
    ensures ok == DirPass(cfg, entries, |entries|, old(disk.fs)).Ok?
    ensures ok ==> disk.fs == DirPass(cfg, entries, |entries|, old(disk.fs)).value
    ensures !ok ==> disk.fs == StampsLeave(cfg, entries, |entries|, old(disk.fs))
  {
    hide ApplyAttributes;
    OnlyDirectories(entries);
    assert entries[..|entries|] == entries && dirs[..|dirs|] == dirs;
    CollectedPass(cfg, entries, |entries|, dirs, disk.fs);
    var i := |dirs|;
    while i > 0
      invariant 0 <= i <= |dirs|
      invariant DirPass(cfg, dirs, i, disk.fs) == DirPass(cfg, dirs, |dirs|, old(disk.fs))
      invariant StampsLeave(cfg, dirs, i, disk.fs) == StampsLeave(cfg, dirs, |dirs|, old(disk.fs))
    {
      var applied := Disks.Apply(disk, dirs[i - 1], At(cfg, dirs[i - 1]), cfg.attrs);
      if applied.Err? {
        return false;
      }
      i := i - 1;
    }
    return true;
  }

  /** The hard-link groups, one after the other. */
  method LinkGroups(disk: Disk, cfg: Config, groups: seq<Group>) returns (ok: bool)
    requires disk.proc == cfg.proc
    modifies disk
    ensures ok == LinkPass(cfg, groups, |groups|, old(disk.fs)).Ok?
    ensures ok ==> disk.fs == LinkPass(cfg, groups, |groups|, old(disk.fs)).value
    ensures !ok ==> disk.fs == LinksLeave(cfg, groups, |groups|, old(disk.fs))
  {
    hide LinkGroup, GroupLeaves;
    for g := 0 to |groups|
      invariant LinkPass(cfg, groups, g, old(disk.fs)) == Ok(disk.fs)
    {
      var linked := ApplyHardLinks(disk, cfg, groups[g]);
      if linked.Err? {
        PassStops(cfg, groups, g + 1, |groups|, old(disk.fs));
        return false;
      }
    }
    return true;
  }

  lemma {:induction false} PassStops(cfg: Config, groups: seq<Group>, k: nat, n: nat, fs: FS)
    requires k <= n <= |groups| && LinkPass(cfg, groups, k, fs).Err?
    ensures LinkPass(cfg, groups, n, fs).Err? && LinksLeave(cfg, groups, n, fs) == LinksLeave(cfg, groups, k, fs)
    decreases n
  {
    hide LinkGroup, GroupLeaves;
    if k < n {
      PassStops(cfg, groups, k, n - 1, fs);
    }
  }

  /** The signatures written while handling the first k entries. */
  function AskedOn(cfg: Config, inbox: seq<Message>, fs: FS, k: nat): seq<Message>
    requires inbox != [] && inbox[0].FileListMsg? && k <= |inbox[0].list.entries|
  {
    if k == 0 then []
    else
      var before, e := AskedOn(cfg, inbox, fs, k - 1), inbox[0].list.entries[k - 1];
      match Replay.ReplayAfter(cfg, inbox, fs, k - 1)
      case Err(_) => before
      case Ok(tape) =>
        if !Transfers(inbox[0].list, e) then before
        else
          match Prepare(cfg, e, tape.st.fs)
          case Err(_) => before
          case Ok(plan) => before + [SignatureFor(e, plan)]
  }

  lemma {:induction false} ReplayStops(cfg: Config, inbox: seq<Message>, fs: FS, k: nat, n: nat, temp: (FS, Path) -> Path)
    requires inbox != [] && inbox[0].FileListMsg? && k <= n <= |inbox[0].list.entries|
    requires Replay.ReplayAfter(cfg, inbox, fs, k).Err?
    ensures Replay.ReplayAfter(cfg, inbox, fs, n).Err?
    ensures EntriesLeave(cfg, inbox, fs, n, temp) == EntriesLeave(cfg, inbox, fs, k, temp)
    decreases n
  {
    hide Prepare, TakeDelta, ReceiveLocal, EntryLeaves;
    if k < n {
      ReplayStops(cfg, inbox, fs, k, n - 1, temp);
    }
  }

  lemma TakenIsValid(cfg: Config, e: FileEntry, plan: Plan, msg: Message, st: State)
    requires Valid(st.fs) && e.kind == Regular && TakeDelta(cfg, e, plan, msg, st).Ok?
    ensures Valid(TakeDelta(cfg, e, plan, msg, st).value.fs)
  {
    hide Valid, Commit, ReadDelta, NewData;
    if !cfg.ropts.dryRun {
      Contents.CommitValid(cfg, e, plan, NewData(plan, ReadDelta(cfg, e, msg).value).value, st.fs);
    }
  }

  /** What is read and what becomes of the state while one entry is handled. */
  function EntryTaken(cfg: Config, transfers: bool, e: FileEntry, st: State, inbox: seq<Message>): (r: Result<Replay.Tape, Failure>)
    ensures r.Ok? ==> r.value.read <= |inbox|
  {
    if !transfers then
      match ReceiveLocal(cfg, e, st)
      case Err(x) => Err(x)
      case Ok(after) => Ok(Replay.Tape(after, 0))
    else
      match Prepare(cfg, e, st.fs)
      case Err(x) => Err(x)
      case Ok(plan) =>
        if inbox == [] then Err(Closed)
        else
          match TakeDelta(cfg, e, plan, inbox[0], CountSent(cfg, SignatureFor(e, plan), st))
          case Err(x) => Err(x)
          case Ok(after) => Ok(Replay.Tape(after, 1))
  }

  function AskedAbout(cfg: Config, transfers: bool, e: FileEntry, fs: FS): seq<Message> {
    if !transfers then []
    else
      match Prepare(cfg, e, fs)
      case Err(_) => []
      case Ok(plan) => [SignatureFor(e, plan)]
  }

  lemma NoneYet(cfg: Config, inbox: seq<Message>, fs: FS)
    requires inbox != [] && inbox[0].FileListMsg?
    ensures Replay.ReplayAfter(cfg, inbox, fs, 0) == Ok(Replay.Tape(CountReceived(cfg, inbox[0], State(fs, NO_STATS, [])), 1))
    ensures AskedOn(cfg, inbox, fs, 0) == []
  {
  }

  /** One more entry of the loop. */
  lemma OneMore(cfg: Config, inbox: seq<Message>, fs: FS, k: nat, temp: (FS, Path) -> Path)
    requires inbox != [] && inbox[0].FileListMsg? && k < |inbox[0].list.entries| && Replay.ReplayAfter(cfg, inbox, fs, k).Ok?
    requires Replay.ReplayAfter(cfg, inbox, fs, k).value.read <= |inbox|
    ensures var tape, e := Replay.ReplayAfter(cfg, inbox, fs, k).value, inbox[0].list.entries[k];
      var ahead, transfers := inbox[tape.read..], Transfers(inbox[0].list, e);
      && EntriesLeave(cfg, inbox, fs, k + 1, temp) == EntryLeaves(cfg, transfers, e, tape.st.fs, ahead, temp)
      && AskedOn(cfg, inbox, fs, k + 1) == AskedOn(cfg, inbox, fs, k) + AskedAbout(cfg, transfers, e, tape.st.fs)
      && Replay.ReplayAfter(cfg, inbox, fs, k + 1)
         == match EntryTaken(cfg, transfers, e, tape.st, ahead)
            case Err(x) => Err(x)
            case Ok(taken) => Ok(Replay.Tape(taken.st, tape.read + taken.read))
  {
    hide EntryLeaves, Prepare, TakeDelta, ReceiveLocal, Transfers;
    var before := AskedOn(cfg, inbox, fs, k);
    assert before + [] == before;
  }

  /** One entry of Receiver's loop. */
  method ReceiveEntry(disk: Disk, ctx: Context, conn: Counted, cfg: Config, e: FileEntry, secondary: bool, temp: (FS, Path) -> Path, progress: bool) returns (ok: bool)
    requires disk.proc == cfg.proc && Valid(disk.fs) && FindsNames(cfg.proc, temp) && conn.size == cfg.wireSize
    modifies disk, ctx, conn, conn.rw
    ensures ok ==> Valid(disk.fs)
    ensures disk.fs == EntryLeaves(cfg, e.kind == Regular && !secondary, e, old(disk.fs), old(conn.rw.inbox), temp)
    ensures var taken := EntryTaken(cfg, e.kind == Regular && !secondary, e, old(View(disk, ctx, conn)), old(conn.rw.inbox));
      && ok == taken.Ok?
      && (ok ==> View(disk, ctx, conn) == taken.value.st && conn.rw.inbox == old(conn.rw.inbox)[taken.value.read..])
      && (ok ==> conn.rw.outbox == old(conn.rw.outbox) + AskedAbout(cfg, e.kind == Regular && !secondary, e, old(disk.fs)))
  {
    hide Prepare, TakeDelta, Valid, FindsNames, ReceiveDir, ReceiveSymlink, Report;
    ghost var before := View(disk, ctx, conn);
    match e.kind
    case Directory =>
      ok := ReceiveDirectory(disk, ctx, conn, cfg, e);
      if ok {
        Contents.LocalValid(cfg, e, before);
      }
    case Symlinked =>
      ok := ReceiveLink(disk, ctx, conn, cfg, e);
      if ok {
        Contents.LocalValid(cfg, e, before);
      }
    case Regular =>
      if secondary {
        ctx.ReportChange(cfg.ropts, Some(HARD_LINK_CODE), e);
        return true;
      }
      ghost var inbox := conn.rw.inbox;
      ok := ReceiveRegular(disk, ctx, conn, cfg, e, temp, progress);
      if ok {
        var plan := Prepare(cfg, e, before.fs).value;
        TakenIsValid(cfg, e, plan, inbox[0], CountSent(cfg, SignatureFor(e, plan), before));
      }
  }

  /** The receiver's loop over the list it was sent, on an inbox that began with that list. */
  method ReceiveEntries(disk: Disk, ctx: Context, conn: Counted, cfg: Config, ghost inbox: seq<Message>, temp: (FS, Path) -> Path, progress: bool, list: FileList)
    returns (ok: bool, dirs: seq<FileEntry>)
    requires disk.proc == cfg.proc && Valid(disk.fs) && FindsNames(cfg.proc, temp) && conn.size == cfg.wireSize
    requires inbox != [] && inbox[0] == FileListMsg(list) && conn.rw.inbox == inbox[1..]
    requires View(disk, ctx, conn) == CountReceived(cfg, inbox[0], State(disk.fs, NO_STATS, []))
    modifies disk, ctx, conn, conn.rw
    ensures ok == Replay.ReplayAfter(cfg, inbox, old(disk.fs), |list.entries|).Ok?
    ensures ok ==>
      var tape := Replay.ReplayAfter(cfg, inbox, old(disk.fs), |list.entries|).value;
      && View(disk, ctx, conn) == tape.st && tape.read <= |inbox| && conn.rw.inbox == inbox[tape.read..]
      && conn.rw.outbox == old(conn.rw.outbox) + AskedOn(cfg, inbox, old(disk.fs), |list.entries|)
      && dirs == DirectoriesOf(list.entries)
    ensures !ok ==> disk.fs == EntriesLeave(cfg, inbox, old(disk.fs), |list.entries|, temp)
  {
    hide Prepare, TakeDelta, Valid, FindsNames, ReceiveLocal, EntriesLeave, EntryLeaves, EntryTaken, AskedAbout, Replay.ReplayAfter, AskedOn;
    NoneYet(cfg, inbox, disk.fs);
    var secondary := SecondaryPaths(list.groups);
    dirs := [];
    assert conn.rw.outbox + [] == conn.rw.outbox;
    for k := 0 to |list.entries|
      invariant Valid(disk.fs)
      invariant Replay.ReplayAfter(cfg, inbox, old(disk.fs), k).Ok?
      invariant var tape := Replay.ReplayAfter(cfg, inbox, old(disk.fs), k).value;
        View(disk, ctx, conn) == tape.st && tape.read <= |inbox| && conn.rw.inbox == inbox[tape.read..]
      invariant conn.rw.outbox == old(conn.rw.outbox) + AskedOn(cfg, inbox, old(disk.fs), k)
      invariant dirs == DirectoriesOf(list.entries[..k])
    {
      var e := list.entries[k];
      assert list.entries[..k + 1][..k] == list.entries[..k];
      OneMore(cfg, inbox, old(disk.fs), k, temp);
      ok := ReceiveEntry(disk, ctx, conn, cfg, e, e.path in secondary, temp, progress);
      if !ok {
        ReplayStops(cfg, inbox, old(disk.fs), k + 1, |list.entries|, temp);
        return;
      }
      if e.kind == Directory {
        dirs := dirs + [e];
      }
    }
    assert list.entries[..|list.entries|] == list.entries;
    return true, dirs;
  }

  /**
   * Receiver: the file list, the entries, the two passes, and the totals.
   * What it leaves on disk is what the specification makes of its inbox, and
   * a dry run leaves everything as it was, whatever it is sent.
   */
  method RunReceiver(disk: Disk, rw: Connection, cfg: Config, temp: (FS, Path) -> Path, progress: bool) returns (ok: bool, stats: Stats, lines: seq<string>)
    requires disk.proc == cfg.proc && Valid(disk.fs) && FindsNames(cfg.proc, temp)
    modifies disk, rw
    ensures ok == Replay.ReceiveAll(cfg, old(rw.inbox), old(disk.fs)).Ok?
    ensures ok ==> disk.fs == Replay.ReceiveAll(cfg, old(rw.inbox), old(disk.fs)).value
    ensures disk.fs == ReceiverLeaves(cfg, old(rw.inbox), old(disk.fs), temp)
    ensures cfg.ropts.dryRun ==> disk.fs == old(disk.fs)
    ensures ok ==>
      var inbox := old(rw.inbox);
      var tape := Replay.ReplayAfter(cfg, inbox, old(disk.fs), |inbox[0].list.entries|).value;
      && stats == tape.st.stats && lines == tape.st.lines
      && tape.read <= |inbox| && rw.inbox == inbox[tape.read..]
      && rw.outbox == old(rw.outbox) + AskedOn(cfg, inbox, old(disk.fs), |inbox[0].list.entries|)
  {
    hide Valid, FindsNames, Replay.ReplayAfter, AskedOn, LinkPass, DirPass, EntriesLeave, LinksLeave, StampsLeave;
    if cfg.ropts.dryRun {
      DryRunWritesNothing(cfg, rw.inbox, disk.fs, temp);
    }
    if Replay.ReceiveAll(cfg, rw.inbox, disk.fs).Ok? {
      SuccessLeavesTheResult(cfg, rw.inbox, disk.fs, temp);
    }
    var conn := new Counted(rw, cfg.wireSize);
    var ctx := new Context();
    stats, lines := NO_STATS, [];
    var got := conn.Receive();
    if got.Err? || !got.value.FileListMsg? {
      return false, stats, lines;
    }
    var list := got.value.list;
    var dirs: seq<FileEntry>;
    ok, dirs := ReceiveEntries(disk, ctx, conn, cfg, old(rw.inbox), temp, progress, list);
    if !ok {
      return false, stats, lines;
    }
    if !cfg.ropts.dryRun {
      ok := LinkGroups(disk, cfg, list.groups);
      if !ok {
        return false, stats, lines;
      }
      ok := StampDirectories(disk, cfg, list.entries, dirs);
      if !ok {
        return false, stats, lines;
      }
    }
    return true, ctx.stats.(bytesSent := conn.written, bytesReceived := conn.read), ctx.lines;
  }

  // ---- Sender ----

  /** What Sender has done once the first k entries are behind it: how many messages it has read, and what it has written. */
  datatype Sent = Sent(read: nat, wrote: seq<Message>)

  function SendAfter(cfg: Config, src: map<Path, Bytes>, list: FileList, inbox: seq<Message>, k: nat): Result<Sent, Failure>
    requires k <= |list.entries|
  {
    if k == 0 then Ok(Sent(0, [FileListMsg(list)]))
    else
      match SendAfter(cfg, src, list, inbox, k - 1)
      case Err(x) => Err(x)
      case Ok(sent) =>
        var e := list.entries[k - 1];
        if !Transfers(list, e) then Ok(sent)
        else if sent.read >= |inbox| then Err(Closed)
        else
          match Reply(cfg, src, e, inbox[sent.read])
          case Err(x) => Err(x)
          case Ok(msg) => Ok(Sent(sent.read + 1, sent.wrote + [msg]))
  }

  /** What it has written once it has got as far as it can on the first k entries. */
  function WroteBy(cfg: Config, src: map<Path, Bytes>, list: FileList, inbox: seq<Message>, k: nat): seq<Message>
    requires k <= |list.entries|
  {
    match SendAfter(cfg, src, list, inbox, k)
    case Ok(sent) => sent.wrote
    case Err(_) => if k == 0 then [] else WroteBy(cfg, src, list, inbox, k - 1)
  }

  /** appendTailOps. */
  method BuildAppendTail(trusted: int, data: Bytes) returns (r: Result<seq<Op>, Failure>)
    requires 0 <= trusted
    ensures r == AppendTailOps(trusted, data)
    ensures if trusted <= |data| then r.Ok? else r == Err(Diminished)
    ensures r.Ok? ==> forall basis: Bytes :: |basis| == trusted ==> Delta.Apply(basis, r.value, trusted) == Ok(basis + data[trusted..])
    ensures r.Ok? ==> LiteralBytes(r.value) == |data| - trusted
  {
    if trusted > |data| {
      return Err(Diminished);
    }
    var ops: seq<Op> := [];
    if trusted > 0 {
      ops := ops + [Copy(0)];
    }
    var tail := data[trusted..];
    if tail != [] {
      ops := ops + [Data(tail)];
    }
    assert ops == (if trusted > 0 then [Copy(0)] else []) + (if data[trusted..] != [] then [Data(data[trusted..])] else []);
    forall basis: Bytes | |basis| == trusted ensures Delta.Apply(basis, ops, trusted) == Ok(basis + data[trusted..]) {
      Effects.AppendTailReplays(basis, data);
    }
    LiteralBytesConcat(if trusted > 0 then [Copy(0)] else [], Flush(tail));
    LiteralBytesFlush(tail);
    assert [Copy(0)][1..] == [];
    return Ok(ops);
  }

  /** Sender's answer to one signature. */
  method AnswerSignature(cfg: Config, src: map<Path, Bytes>, e: FileEntry, msg: Message) returns (r: Result<Message, Failure>)
    ensures r == Reply(cfg, src, e, msg)
  {
    if msg.ErrorMsg? {
      return Err(PeerError);
    }
    if !msg.SignatureMsg? {
      return Err(WrongFrame);
    }
    if msg.path != e.path {
      return Err(OutOfOrder);
    }
    var ops: seq<Op> := [];
    if msg.action != AppendSkip {
      if e.path !in src {
        return Err(System(ENOENT));
      }
      if msg.action == AppendTail {
        if msg.sig.blockSize < 0 {
          return Err(Diminished);
        }
        var tail := BuildAppendTail(msg.sig.blockSize, src[e.path]);
        if tail.Err? {
          return Err(tail.error);
        }
        ops := tail.value;
      } else {
        ops := GenerateDelta(cfg.digest, msg.sig, src[e.path]);
      }
    }
    var delta := Wire.ToWireDeltaOps(cfg.codec, ops, Render(e.path), cfg.copts);
    return Ok(DeltaMsg(e.path, delta));
  }

  lemma {:induction false} SendStops(cfg: Config, src: map<Path, Bytes>, list: FileList, inbox: seq<Message>, k: nat, n: nat)
    requires k <= n <= |list.entries| && SendAfter(cfg, src, list, inbox, k).Err?
    ensures SendAfter(cfg, src, list, inbox, n) == SendAfter(cfg, src, list, inbox, k)
    ensures WroteBy(cfg, src, list, inbox, n) == WroteBy(cfg, src, list, inbox, k)
    decreases n
  {
    hide Reply;
    if k < n {
      SendStops(cfg, src, list, inbox, k, n - 1);
    }
  }

  /** Sender, from the list on: one signature read and one delta written for every entry that is transferred. */
  method RunSender(rw: Connection, cfg: Config, src: map<Path, Bytes>, list: FileList) returns (r: Result<(), Failure>)
    modifies rw
    ensures match SendAfter(cfg, src, list, old(rw.inbox), |list.entries|)
            case Err(x) => r == Err(x) && rw.outbox == old(rw.outbox) + WroteBy(cfg, src, list, old(rw.inbox), |list.entries|)
            case Ok(sent) =>
              && r == Ok(()) && sent.read <= |old(rw.inbox)|
              && rw.inbox == old(rw.inbox)[sent.read..] && rw.outbox == old(rw.outbox) + sent.wrote
  {
    hide Reply;
    ghost var inbox := rw.inbox;
    rw.Send(FileListMsg(list));
    var secondary := SecondaryPaths(list.groups);
    for k := 0 to |list.entries|
      invariant SendAfter(cfg, src, list, inbox, k).Ok?
      invariant var sent := SendAfter(cfg, src, list, inbox, k).value;
        sent.read <= |inbox| && rw.inbox == inbox[sent.read..] && rw.outbox == old(rw.outbox) + sent.wrote
    {
      var e := list.entries[k];
      if e.kind == Regular && e.path !in secondary {
        var got := rw.Receive();
        if got.Err? {
          SendStops(cfg, src, list, inbox, k + 1, |list.entries|);
          return Err(got.error);
        }
        var answer := AnswerSignature(cfg, src, e, got.value);
        if answer.Err? {
          SendStops(cfg, src, list, inbox, k + 1, |list.entries|);
          return Err(answer.error);
        }
        rw.Send(answer.value);
      }
    }
    return Ok(());
  }

  // ---- Together ----

  lemma {:induction false} SentGrows(job: Job, start: FS, k: nat, n: nat)
    requires k <= n <= |job.list.entries| && After(job, start, n).Ok?
    ensures After(job, start, k).Ok? && After(job, start, k).value.sent <= After(job, start, n).value.sent
    decreases n
  {
    hide Prepare, Reply, TakeDelta, ReceiveLocal;
    if k < n {
      SentGrows(job, start, k, n - 1);
    }
  }

  /** Fed the signatures of a run, Sender writes what the run delivers. */
  lemma {:induction false} SenderFollows(job: Job, start: FS, k: nat)
    requires k <= |job.list.entries| && After(job, start, |job.list.entries|).Ok?
    ensures After(job, start, k).Ok?
    ensures SendAfter(job.cfg, job.src, job.list, After(job, start, |job.list.entries|).value.sent, k)
         == Ok(Sent(|After(job, start, k).value.sent|, After(job, start, k).value.delivered))
  {
    hide Prepare, TakeDelta, Reply, ReceiveLocal;
    var inbox := After(job, start, |job.list.entries|).value.sent;
    SentGrows(job, start, k, |job.list.entries|);
    if k > 0 {
      SenderFollows(job, start, k - 1);
      if Transfers(job.list, Entry(job, k - 1)) {
        var before := After(job, start, k - 1).value.sent;
        assert inbox[|before|] == After(job, start, k).value.sent[|before|];
      }
    }
  }

  lemma StepAsks(job: Job, e: FileEntry, pr: Progress)
    requires SyncEntry(job, e, pr).Ok?
    ensures Transfers(job.list, e) ==>
      Prepare(job.cfg, e, pr.st.fs).Ok? && SyncEntry(job, e, pr).value.sent == pr.sent + [SignatureFor(e, Prepare(job.cfg, e, pr.st.fs).value)]
    ensures !Transfers(job.list, e) ==> SyncEntry(job, e, pr).value.sent == pr.sent
  {
    hide Prepare, TakeDelta, Reply, ReceiveLocal, Transfers;
  }

  /** Fed what a run delivers, Receiver writes the signatures of the run. */
  lemma {:induction false} ReceiverAsks(job: Job, start: FS, inbox: seq<Message>, k: nat)
    requires k <= |job.list.entries| && After(job, start, |job.list.entries|).Ok?
    requires inbox == After(job, start, |job.list.entries|).value.delivered
    ensures inbox != [] && inbox[0] == FileListMsg(job.list) && After(job, start, k).Ok?
    ensures AskedOn(job.cfg, inbox, start, k) == After(job, start, k).value.sent
  {
    hide Prepare, Replay.ReplayAfter, SyncEntry, Transfers;
    Replay.ReplayFollows(job, start, inbox, k);
    if k > 0 {
      ReceiverAsks(job, start, inbox, k - 1);
      Replay.ReplayFollows(job, start, inbox, k - 1);
      StepAsks(job, Entry(job, k - 1), After(job, start, k - 1).value);
    }
  }

  /**
   * The two loops fit: each, fed exactly what the other writes, writes exactly
   * what the other is fed, and together they are the sequential run.
   */
  lemma SidesMakeTheRun(job: Job, start: FS)
    requires Run(job, start).Ok?
    ensures var delivered, sent := Run(job, start).value.delivered, Run(job, start).value.sent;
      && SendAfter(job.cfg, job.src, job.list, sent, |job.list.entries|) == Ok(Sent(|sent|, delivered))
      && delivered != [] && delivered[0] == FileListMsg(job.list)
      && AskedOn(job.cfg, delivered, start, |job.list.entries|) == sent
      && Replay.ReceiveAll(job.cfg, delivered, start) == Ok(Run(job, start).value.st.fs)
  {
    hide Passes, After, Replay.ReplayAfter, AskedOn, SendAfter;
    var n := |job.list.entries|;
    SenderFollows(job, start, n);
    ReceiverAsks(job, start, Run(job, start).value.delivered, n);
    Replay.ReplayFollows(job, start, Run(job, start).value.delivered, n);
  }
}
