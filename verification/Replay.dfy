/** --write-batch and --read-batch: the recorded stream, replayed on a look-alike destination (internal/cli/sync.go). */
module Replay {
  import opened Prelude
  import opened FileSystem
  import opened Entries
  import opened Attributes
  import opened Receiver
  import opened SyncRun
  import opened Runs
  import opened EndToEnd
  import opened Idempotence
  import opened Twins
  import Frames

  // ---- Receiver on a recorded inbox ----

  /** The receiver's state and how many messages of the inbox it has read. */
  datatype Tape = Tape(st: State, read: nat)

  /** The first k entries handled against an inbox; signatures are written to nobody. */
  function ReplayAfter(cfg: Config, inbox: seq<Message>, fs: FS, k: nat): Result<Tape, Failure>
    requires inbox != [] && inbox[0].FileListMsg? && k <= |inbox[0].list.entries|
  {
    var list := inbox[0].list;
    if k == 0 then Ok(Tape(CountReceived(cfg, inbox[0], State(fs, NO_STATS, [])), 1))
    else
      match ReplayAfter(cfg, inbox, fs, k - 1)
      case Err(x) => Err(x)
      case Ok(tape) =>
        var e := list.entries[k - 1];
        if !Transfers(list, e) then
          match ReceiveLocal(cfg, e, tape.st)
          case Err(x) => Err(x)
          case Ok(st) => Ok(tape.(st := st))
        else
          match Prepare(cfg, e, tape.st.fs)
          case Err(x) => Err(x)
          case Ok(plan) =>
            if tape.read >= |inbox| then Err(Closed)
            else
              match TakeDelta(cfg, e, plan, inbox[tape.read], CountSent(cfg, SignatureFor(e, plan), tape.st))
              case Err(x) => Err(x)
              case Ok(st) => Ok(Tape(st, tape.read + 1))
  }

  /** Receiver run on an inbox alone, to the final file system. */
  function ReceiveAll(cfg: Config, inbox: seq<Message>, fs: FS): Result<FS, Failure> {
    if inbox == [] then Err(Closed)
    else if inbox[0].ErrorMsg? then Err(PeerError)
    else if !inbox[0].FileListMsg? then Err(WrongFrame)
    else
      match ReplayAfter(cfg, inbox, fs, |inbox[0].list.entries|)
      case Err(x) => Err(x)
      case Ok(tape) => Passes(cfg, inbox[0].list, tape.st.fs)
  }

  lemma {:induction false} DeliveredGrows(job: Job, start: FS, k: nat, n: nat)
    requires k <= n <= |job.list.entries| && After(job, start, n).Ok?
    ensures After(job, start, k).Ok? && After(job, start, k).value.delivered <= After(job, start, n).value.delivered
    ensures 1 <= |After(job, start, k).value.delivered| && After(job, start, k).value.delivered[0] == FileListMsg(job.list)
    decreases n
  {
    if k < n {
      DeliveredGrows(job, start, k, n - 1);
    } else if n > 0 {
      DeliveredGrows(job, start, n - 1, n - 1);
    }
  }

  /** Replaying what a run delivered, on the file system it started from, follows the run step by step. */
  lemma {:induction false} ReplayFollows(job: Job, start: FS, inbox: seq<Message>, k: nat)
    requires k <= |job.list.entries| && After(job, start, |job.list.entries|).Ok?
    requires inbox == After(job, start, |job.list.entries|).value.delivered
    ensures inbox != [] && inbox[0] == FileListMsg(job.list) && After(job, start, k).Ok?
    ensures ReplayAfter(job.cfg, inbox, start, k)
         == Ok(Tape(After(job, start, k).value.st, |After(job, start, k).value.delivered|))
  {
    hide Prepare, TakeDelta, Reply, ReceiveLocal;
    DeliveredGrows(job, start, k, |job.list.entries|);
    if k > 0 {
      ReplayFollows(job, start, inbox, k - 1);
      var before, now := After(job, start, k - 1).value.delivered, After(job, start, k).value.delivered;
      if Transfers(job.list, Entry(job, k - 1)) {
        assert inbox[|before|] == now[|before|];
      }
    }
  }

  // ---- Look-alike destinations give the same exchange ----

  ghost predicate Alike(job: Job, next: Job) {
    Again(job, next) && SameOwner(job.cfg.proc, next.cfg.proc)
  }

  lemma TwinOwnership(e: FileEntry, opts: AttrOptions, m: Meta, n: Meta)
    requires m.(mtime := 0) == n.(mtime := 0)
    ensures WithOwnership(e, opts, WithTimes(e, opts, WithPerms(e, opts, m))).(mtime := 0)
         == WithOwnership(e, opts, WithTimes(e, opts, WithPerms(e, opts, n))).(mtime := 0)
    ensures WithOwnership(e, opts, m).(mtime := 0) == WithOwnership(e, opts, n).(mtime := 0)
  {
  }

  lemma TwinPlain(a: FS, b: FS, e: FileEntry, p: Path, opts: AttrOptions)
    requires Twin(a, b) && ApplyPlain(a, e, p, opts).Ok?
    ensures ApplyPlain(b, e, p, opts).Ok? && Twin(ApplyPlain(a, e, p, opts).value, ApplyPlain(b, e, p, opts).value)
  {
    TwinAt(a, b, p);
    hide Twin, WithOwnership, WithTimes, WithPerms, SetMeta;
    if Lookup(a, p).Some? {
      var m, n := Lookup(a, p).value.meta, Lookup(b, p).value.meta;
      TwinOwnership(e, opts, m, n);
      TwinSetMeta(a, b, p, WithOwnership(e, opts, WithTimes(e, opts, WithPerms(e, opts, m))),
                           WithOwnership(e, opts, WithTimes(e, opts, WithPerms(e, opts, n))));
    }
  }

  lemma TwinLinkOwner(a: FS, b: FS, e: FileEntry, p: Path, opts: AttrOptions)
    requires Twin(a, b) && ApplyLinkOwner(a, e, p, opts).Ok?
    ensures ApplyLinkOwner(b, e, p, opts).Ok? && Twin(ApplyLinkOwner(a, e, p, opts).value, ApplyLinkOwner(b, e, p, opts).value)
  {
    TwinAt(a, b, p);
    hide Twin, WithOwnership, SetMeta;
    if Lookup(a, p).Some? {
      TwinOwnership(e, opts, Lookup(a, p).value.meta, Lookup(b, p).value.meta);
      TwinSetMeta(a, b, p, WithOwnership(e, opts, Lookup(a, p).value.meta), WithOwnership(e, opts, Lookup(b, p).value.meta));
    }
  }

  lemma TwinAttributes(x: Process, y: Process, a: FS, b: FS, e: FileEntry, p: Path, opts: AttrOptions)
    requires Twin(a, b) && SameOwner(x, y) && ApplyAttributes(x, a, e, p, opts).Ok?
    ensures ApplyAttributes(y, b, e, p, opts).Ok?
    ensures Twin(ApplyAttributes(x, a, e, p, opts).value, ApplyAttributes(y, b, e, p, opts).value)
  {
    hide Twin, ApplyPlain, ApplyLinkOwner, Remove, Symlink;
    if e.kind != Symlinked {
      TwinPlain(a, b, e, p, opts);
    } else if !opts.links {
      TwinLinkOwner(a, b, e, p, opts);
    } else {
      TwinRemove(x, y, a, b, p);
      var c, d := Remove(x, a, p).value, Remove(y, b, p).value;
      TwinSymlink(x, y, c, d, p, e.target);
      TwinLinkOwner(Symlink(x, c, p, e.target).value, Symlink(y, d, p, e.target).value, e, p, opts);
    }
  }

  /** Two plans that differ at most in a modification time. */
  predicate SamePlan(p: Plan, q: Plan) {
    && Faded(p.was) == Faded(q.was)
    && p.usedPartial == q.usedPartial && p.basis == q.basis && p.action == q.action && p.sig == q.sig
  }

  lemma TwinPrepare(job: Job, next: Job, e: FileEntry, a: FS, b: FS)
    requires Alike(job, next) && Twin(a, b) && Prepare(job.cfg, e, a).Ok?
    ensures Prepare(next.cfg, e, b).Ok? && SamePlan(Prepare(job.cfg, e, a).value, Prepare(next.cfg, e, b).value)
  {
    hide Twin, Lstat, ReadFile;
    var p := At(job.cfg, e);
    TwinLstat(a, b, p);
    TwinReadFile(a, b, p);
    if job.cfg.ropts.partialDir.Some? {
      TwinReadFile(a, b, PartialPath(p, job.cfg.ropts.partialDir.value, e.path));
    }
  }

  lemma TwinWrite(job: Job, next: Job, e: FileEntry, p: Plan, q: Plan, data: Bytes, a: FS, b: FS)
    requires Alike(job, next) && Twin(a, b) && SamePlan(p, q) && WriteContent(job.cfg, e, p, data, a).Ok?
    ensures WriteContent(next.cfg, e, q, data, b).Ok?
    ensures Twin(WriteContent(job.cfg, e, p, data, a).value, WriteContent(next.cfg, e, q, data, b).value)
  {
    hide Twin, Install, Remove;
    assert MustWrite(p, data) == MustWrite(q, data);
    if MustWrite(p, data) {
      TwinInstall(job.cfg.proc, next.cfg.proc, a, b, At(job.cfg, e), data);
      var c, d := Install(job.cfg.proc, a, At(job.cfg, e), data).value, Install(next.cfg.proc, b, At(job.cfg, e), data).value;
      if job.cfg.ropts.partialDir.Some? {
        TwinRemove(job.cfg.proc, next.cfg.proc, c, d, PartialPath(At(job.cfg, e), job.cfg.ropts.partialDir.value, e.path));
      }
    }
  }

  lemma TwinCommit(job: Job, next: Job, e: FileEntry, p: Plan, q: Plan, data: Bytes, a: FS, b: FS)
    requires Alike(job, next) && Twin(a, b) && SamePlan(p, q) && Commit(job.cfg, e, p, data, a).Ok?
    ensures Commit(next.cfg, e, q, data, b).Ok?
    ensures Twin(Commit(job.cfg, e, p, data, a).value, Commit(next.cfg, e, q, data, b).value)
  {
    hide Twin, MkdirAll, WriteContent, ApplyAttributes, SamePlan;
    var at := At(job.cfg, e);
    TwinMkdirAll(job.cfg.proc, next.cfg.proc, a, b, Parent(at));
    var c, d := MkdirAll(job.cfg.proc, a, Parent(at)).value, MkdirAll(next.cfg.proc, b, Parent(at)).value;
    TwinWrite(job, next, e, p, q, data, c, d);
    TwinAttributes(job.cfg.proc, next.cfg.proc, WriteContent(job.cfg, e, p, data, c).value,
                   WriteContent(next.cfg, e, q, data, d).value, e, at, job.cfg.attrs);
  }

  lemma TwinTake(job: Job, next: Job, e: FileEntry, p: Plan, q: Plan, msg: Message, s: State, t: State)
    requires Alike(job, next) && Twin(s.fs, t.fs) && SamePlan(p, q) && TakeDelta(job.cfg, e, p, msg, s).Ok?
    ensures TakeDelta(next.cfg, e, q, msg, t).Ok?
    ensures Twin(TakeDelta(job.cfg, e, p, msg, s).value.fs, TakeDelta(next.cfg, e, q, msg, t).value.fs)
  {
    hide Twin, Commit, ReadDelta;
    assert ReadDelta(next.cfg, e, msg) == ReadDelta(job.cfg, e, msg) by {
      SameReading(job, next, e, msg);
    }
    var ops := ReadDelta(job.cfg, e, msg).value;
    assert NewData(p, ops) == NewData(q, ops);
    if !job.cfg.ropts.dryRun {
      TwinCommit(job, next, e, p, q, NewData(p, ops).value, s.fs, t.fs);
    }
  }

  lemma SameReading(job: Job, next: Job, e: FileEntry, msg: Message)
    requires Alike(job, next)
    ensures ReadDelta(next.cfg, e, msg) == ReadDelta(job.cfg, e, msg)
    ensures Reply(next.cfg, next.src, e, msg) == Reply(job.cfg, job.src, e, msg)
  {
  }

  lemma TwinLocal(job: Job, next: Job, e: FileEntry, s: State, t: State)
    requires Alike(job, next) && Twin(s.fs, t.fs) && ReceiveLocal(job.cfg, e, s).Ok?
    ensures ReceiveLocal(next.cfg, e, t).Ok?
    ensures Twin(ReceiveLocal(job.cfg, e, s).value.fs, ReceiveLocal(next.cfg, e, t).value.fs)
  {
    var at := At(job.cfg, e);
    TwinLstat(s.fs, t.fs, at);
    hide Twin, MkdirAll, ApplyAttributes, Lstat;
    var x, y := job.cfg.proc, next.cfg.proc;
    if e.kind == Directory && !job.cfg.ropts.dryRun {
      TwinMkdirAll(x, y, s.fs, t.fs, at);
    }
    if e.kind == Symlinked && job.cfg.attrs.links && !job.cfg.ropts.dryRun {
      TwinMkdirAll(x, y, s.fs, t.fs, Parent(at));
      TwinAttributes(x, y, MkdirAll(x, s.fs, Parent(at)).value, MkdirAll(y, t.fs, Parent(at)).value, e, at, job.cfg.attrs);
    }
  }

  lemma TwinEntry(job: Job, next: Job, e: FileEntry, pr: Progress, qr: Progress)
    requires Alike(job, next) && Twin(pr.st.fs, qr.st.fs) && SyncEntry(job, e, pr).Ok?
    requires pr.sent == qr.sent && pr.delivered == qr.delivered
    ensures SyncEntry(next, e, qr).Ok?
    ensures Twin(SyncEntry(job, e, pr).value.st.fs, SyncEntry(next, e, qr).value.st.fs)
    ensures SyncEntry(job, e, pr).value.sent == SyncEntry(next, e, qr).value.sent
    ensures SyncEntry(job, e, pr).value.delivered == SyncEntry(next, e, qr).value.delivered
  {
    hide Twin, Prepare, Reply, TakeDelta, ReceiveLocal;
    if Transfers(job.list, e) {
      TwinPrepare(job, next, e, pr.st.fs, qr.st.fs);
      var p, q := Prepare(job.cfg, e, pr.st.fs).value, Prepare(next.cfg, e, qr.st.fs).value;
      var sig := SignatureFor(e, p);
      SameReading(job, next, e, sig);
      var msg := Reply(job.cfg, job.src, e, sig).value;
      TwinTake(job, next, e, p, q, msg, CountSent(job.cfg, sig, pr.st), CountSent(next.cfg, sig, qr.st));
    } else {
      TwinLocal(job, next, e, pr.st, qr.st);
    }
  }

  /** Two runs that begin on twins exchange the same messages and stay on twins. */
  lemma {:induction false} TwinRuns(job: Job, next: Job, a: FS, b: FS, k: nat)
    requires Alike(job, next) && Twin(a, b) && k <= |job.list.entries| && After(job, a, k).Ok?
    ensures After(next, b, k).Ok? && Twin(After(job, a, k).value.st.fs, After(next, b, k).value.st.fs)
    ensures After(job, a, k).value.sent == After(next, b, k).value.sent
    ensures After(job, a, k).value.delivered == After(next, b, k).value.delivered
  {
    hide Twin, SyncEntry;
    if k > 0 {
      TwinRuns(job, next, a, b, k - 1);
      TwinEntry(job, next, Entry(job, k - 1), After(job, a, k - 1).value, After(next, b, k - 1).value);
    }
  }

  lemma TwinMember(job: Job, next: Job, first: Path, member: Path, a: FS, b: FS)
    requires Alike(job, next) && Twin(a, b) && LinkMember(job.cfg, first, member, a).Ok?
    ensures LinkMember(next.cfg, first, member, b).Ok?
    ensures Twin(LinkMember(job.cfg, first, member, a).value, LinkMember(next.cfg, first, member, b).value)
  {
    hide Twin, MkdirAll, Remove, LinkTo;
    var x, y, m := job.cfg.proc, next.cfg.proc, job.cfg.dest + member;
    TwinMkdirAll(x, y, a, b, Parent(m));
    var c, d := MkdirAll(x, a, Parent(m)).value, MkdirAll(y, b, Parent(m)).value;
    TwinRemove(x, y, c, d, m);
    TwinLinkTo(x, y, Remove(x, c, m).value, Remove(y, d, m).value, job.cfg.dest + first, m);
  }

  lemma {:induction false} TwinGroup(job: Job, next: Job, g: Group, k: nat, a: FS, b: FS)
    requires Alike(job, next) && Twin(a, b) && k <= |g| && LinkGroup(job.cfg, g, k, a).Ok?
    ensures LinkGroup(next.cfg, g, k, b).Ok? && Twin(LinkGroup(job.cfg, g, k, a).value, LinkGroup(next.cfg, g, k, b).value)
  {
    hide Twin, LinkMember;
    if k > 1 {
      TwinGroup(job, next, g, k - 1, a, b);
      TwinMember(job, next, g[0], g[k - 1], LinkGroup(job.cfg, g, k - 1, a).value, LinkGroup(next.cfg, g, k - 1, b).value);
    }
  }

  lemma {:induction false} TwinLinkPass(job: Job, next: Job, groups: seq<Group>, k: nat, a: FS, b: FS)
    requires Alike(job, next) && Twin(a, b) && k <= |groups| && LinkPass(job.cfg, groups, k, a).Ok?
    ensures LinkPass(next.cfg, groups, k, b).Ok? && Twin(LinkPass(job.cfg, groups, k, a).value, LinkPass(next.cfg, groups, k, b).value)
  {
    hide Twin, LinkGroup;
    if k > 0 {
      TwinLinkPass(job, next, groups, k - 1, a, b);
      TwinGroup(job, next, groups[k - 1], |groups[k - 1]|, LinkPass(job.cfg, groups, k - 1, a).value, LinkPass(next.cfg, groups, k - 1, b).value);
    }
  }

  lemma {:induction false} TwinDirPass(job: Job, next: Job, entries: seq<FileEntry>, k: nat, a: FS, b: FS)
    requires Alike(job, next) && Twin(a, b) && k <= |entries| && DirPass(job.cfg, entries, k, a).Ok?
    ensures DirPass(next.cfg, entries, k, b).Ok? && Twin(DirPass(job.cfg, entries, k, a).value, DirPass(next.cfg, entries, k, b).value)
    decreases k
  {
    hide Twin, ApplyAttributes;
    if k > 0 {
      if entries[k - 1].kind != Directory {
        TwinDirPass(job, next, entries, k - 1, a, b);
      } else {
        var e, at := entries[k - 1], At(job.cfg, entries[k - 1]);
        TwinAttributes(job.cfg.proc, next.cfg.proc, a, b, e, at, job.cfg.attrs);
        TwinDirPass(job, next, entries, k - 1, ApplyAttributes(job.cfg.proc, a, e, at, job.cfg.attrs).value,
                    ApplyAttributes(next.cfg.proc, b, e, at, job.cfg.attrs).value);
      }
    }
  }

  /** The live run on b would succeed too, delivering the same stream, and end on a twin. */
  lemma TwinRun(job: Job, next: Job, a: FS, b: FS)
    requires Alike(job, next) && Twin(a, b) && Run(job, a).Ok?
    ensures Run(next, b).Ok? && Run(next, b).value.delivered == Run(job, a).value.delivered
    ensures Twin(Final(job, a), Final(next, b))
  {
    var n := |job.list.entries|;
    TwinRuns(job, next, a, b, n);
    hide Twin, LinkPass, DirPass, After;
    if !job.cfg.ropts.dryRun {
      var c, d := After(job, a, n).value.st.fs, After(next, b, n).value.st.fs;
      TwinLinkPass(job, next, job.list.groups, |job.list.groups|, c, d);
      TwinDirPass(job, next, job.list.entries, n, LinkPass(job.cfg, job.list.groups, |job.list.groups|, c).value,
                  LinkPass(next.cfg, job.list.groups, |job.list.groups|, d).value);
    }
  }

  /**
   * Batch replay: on any destination that looks like the one the live run
   * began on, with the same options, the recorded messages give the tree the
   * live run would have made there, a twin of the tree it made.
   */
  lemma BatchReplay(job: Job, next: Job, a: FS, b: FS)
    requires Alike(job, next) && Twin(a, b) && Run(job, a).Ok?
    ensures ReceiveAll(next.cfg, Run(job, a).value.delivered, b) == Ok(Final(next, b))
    ensures Twin(Final(job, a), Final(next, b))
  {
    TwinRun(job, next, a, b);
    hide Twin, Passes, ReplayAfter;
    ReplayFollows(next, b, Run(job, a).value.delivered, |next.list.entries|);
  }

  // ---- The batch file is bytes ----

  /** gob, as a pair of functions. */
  datatype Gob = Gob(encode: Message -> Bytes, decode: (Byte, Bytes) -> Option<Message>)

  function FrameKind(msg: Message): Byte {
    match msg
    case FileListMsg(_) => Frames.FILE_LIST
    case SignatureMsg(_, _, _) => Frames.SIGNATURE
    case DeltaMsg(_, _) => Frames.DELTA
    case ErrorMsg => Frames.ERROR
  }

  function ToFrame(gob: Gob, msg: Message): Frames.Frame {
    Frames.Frame(FrameKind(msg), gob.encode(msg))
  }

  function ToFrames(gob: Gob, msgs: seq<Message>): (fs: seq<Frames.Frame>)
    ensures |fs| == |msgs|
    ensures forall i :: 0 <= i < |msgs| ==> fs[i] == ToFrame(gob, msgs[i])
  {
    if msgs == [] then [] else [ToFrame(gob, msgs[0])] + ToFrames(gob, msgs[1..])
  }

  /** The messages of a frame sequence, up to the first that does not decode. */
  function FromFrames(gob: Gob, fs: seq<Frames.Frame>): seq<Message> {
    if fs == [] then []
    else
      match gob.decode(fs[0].kind, fs[0].payload)
      case None => []
      case Some(msg) => [msg] + FromFrames(gob, fs[1..])
  }

  /** Decoding inverts encoding on these messages, and each fits in a frame. */
  ghost predicate Carries(gob: Gob, msgs: seq<Message>) {
    forall i :: 0 <= i < |msgs| ==>
      && gob.decode(FrameKind(msgs[i]), gob.encode(msgs[i])) == Some(msgs[i])
      && Frames.Accepted(ToFrame(gob, msgs[i]))
  }

  lemma {:induction false} FramesCarryMessages(gob: Gob, msgs: seq<Message>)
    requires Carries(gob, msgs)
    ensures FromFrames(gob, ToFrames(gob, msgs)) == msgs
  {
    if msgs != [] {
      var tail := msgs[1..];
      assert forall i :: 0 <= i < |tail| ==> tail[i] == msgs[i + 1];
      FramesCarryMessages(gob, tail);
      assert ToFrames(gob, msgs)[1..] == ToFrames(gob, tail);
      assert [msgs[0]] + tail == msgs;
    }
  }

  /** Everything Sender wrote, as recorded in the batch file. */
  function Record(gob: Gob, msgs: seq<Message>): Bytes
    requires Carries(gob, msgs)
  {
    Frames.EncodeAll(ToFrames(gob, msgs))
  }

  /** Reading the file back, byte for byte, replays the transfer on any look-alike destination. */
  lemma BatchFileReplays(gob: Gob, job: Job, next: Job, a: FS, b: FS)
    requires Alike(job, next) && Twin(a, b) && Run(job, a).Ok? && Carries(gob, Run(job, a).value.delivered)
    ensures var read := FromFrames(gob, Frames.DecodeAll(Record(gob, Run(job, a).value.delivered)).0);
      ReceiveAll(next.cfg, read, b) == Ok(Final(next, b)) && Twin(Final(job, a), Final(next, b))
  {
    hide Twin, Run, ReceiveAll, Final;
    var msgs := Run(job, a).value.delivered;
    Frames.FrameStreamRoundTrip(ToFrames(gob, msgs));
    FramesCarryMessages(gob, msgs);
    BatchReplay(job, next, a, b);
  }
}
