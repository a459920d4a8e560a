/**
 * One transfer from start to end with both sides in step: the entries in
 * order, then the hard-link pass, then the directory pass
 * (internal/pipeline/receiver.go, Receiver, with the answers of Sender).
 */
module SyncRun {
  import opened Prelude
  import opened FileSystem
  import opened Entries
  import opened Receiver
  import Wire

  /** A transfer: its settings, the source's file contents, and the list the sender sends. */
  datatype Job = Job(cfg: Config, src: map<Path, Bytes>, list: FileList)

  /** The receiver's state, and what has crossed in either direction. */
  datatype Progress = Progress(st: State, sent: seq<Message>, delivered: seq<Message>)

  function Entry(job: Job, i: nat): FileEntry
    requires i < |job.list.entries|
  {
    job.list.entries[i]
  }

  function Where(job: Job, i: nat): Path
    requires i < |job.list.entries|
  {
    At(job.cfg, Entry(job, i))
  }

  function Start(job: Job, fs: FS): Progress {
    var hello := FileListMsg(job.list);
    Progress(CountReceived(job.cfg, hello, State(fs, NO_STATS, [])), [], [hello])
  }

  function SyncEntry(job: Job, e: FileEntry, pr: Progress): Result<Progress, Failure> {
    if !Transfers(job.list, e) then
      match ReceiveLocal(job.cfg, e, pr.st)
      case Err(x) => Err(x)
      case Ok(st) => Ok(pr.(st := st))
    else
      match Prepare(job.cfg, e, pr.st.fs)
      case Err(x) => Err(x)
      case Ok(plan) =>
        var sig := SignatureFor(e, plan);
        match Reply(job.cfg, job.src, e, sig)
        case Err(x) => Err(x)
        case Ok(msg) =>
          match TakeDelta(job.cfg, e, plan, msg, CountSent(job.cfg, sig, pr.st))
          case Err(x) => Err(x)
          case Ok(st) => Ok(Progress(st, pr.sent + [sig], pr.delivered + [msg]))
  }

  /** The state once the first k entries are done. */
  function After(job: Job, fs: FS, k: nat): Result<Progress, Failure>
    requires k <= |job.list.entries|
  {
    if k == 0 then Ok(Start(job, fs))
    else
      match After(job, fs, k - 1)
      case Err(x) => Err(x)
      case Ok(pr) => SyncEntry(job, Entry(job, k - 1), pr)
  }

  /** The two passes after the last entry; a dry run makes neither. */
  function Passes(cfg: Config, list: FileList, fs: FS): Result<FS, Failure> {
    if cfg.ropts.dryRun then Ok(fs)
    else
      match LinkPass(cfg, list.groups, |list.groups|, fs)
      case Err(x) => Err(x)
      case Ok(linked) => DirPass(cfg, list.entries, |list.entries|, linked)
  }

  function Run(job: Job, fs: FS): Result<Progress, Failure> {
    match After(job, fs, |job.list.entries|)
    case Err(x) => Err(x)
    case Ok(pr) =>
      match Passes(job.cfg, job.list, pr.st.fs)
      case Err(x) => Err(x)
      case Ok(done) => Ok(pr.(st := pr.st.(fs := done)))
  }

  /** What got through n entries got through the first k. */
  lemma {:induction false} EarlierSucceeds(job: Job, start: FS, k: nat, n: nat)
    requires k <= n <= |job.list.entries| && After(job, start, n).Ok?
    ensures After(job, start, k).Ok?
  {
    hide SyncEntry;
    if k < n {
      EarlierSucceeds(job, start, k, n - 1);
    }
  }
}
