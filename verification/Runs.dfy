/**
 * Whole runs: by induction over the entries, then through the two final
 * passes, to what every successful run leaves behind.
 */
module Runs {
  import opened Prelude
  import opened FileSystem
  import opened Entries
  import opened Attributes
  import opened Receiver
  import opened SyncRun
  import opened Effects
  import Wire

  /** Handled by the main loop itself rather than by the hard-link pass. */
  predicate Own(job: Job, i: nat)
    requires i < |job.list.entries|
  {
    !(Entry(job, i).kind == Regular && Secondary(job.list.groups, Entry(job, i).path))
  }

  /** No two entries the main loop handles have names for one inode. */
  ghost predicate Distinct(job: Job, fs: FS) {
    forall i, j :: 0 <= i < j < |job.list.entries| && Own(job, i) && Own(job, j) ==> !Shares(fs, Where(job, i), Where(job, j))
  }

  ghost predicate Safe(job: Job, fs: FS) {
    Valid(fs) && Distinct(job, fs)
  }

  /** A list as Walk sends it, an unaliased destination, and settings that write. */
  ghost predicate Sound(job: Job, fs: FS) {
    WellFormed(job.list) && Safe(job, fs) && Plain(job.cfg)
  }

  /** Decompression inverts compression, and no file to be transferred has a digest collision with what it replaces. */
  ghost predicate Honest(job: Job, fs: FS) {
    && Wire.Inverts(job.cfg.codec)
    && (forall i :: 0 <= i < |job.list.entries| && Transfers(job.list, Entry(job, i)) ==> NoCollision(job, Entry(job, i), fs))
  }

  /** lstat, the name and the inode behind q are as they were. */
  ghost predicate Untouched(fs: FS, after: FS, q: Path) {
    && Lstat(after, q) == Lstat(fs, q)
    && Lookup(after, q) == Lookup(fs, q)
    && (q in after.names <==> q in fs.names)
    && (q in fs.names ==> after.names[q] == fs.names[q])
  }

  // ---- Paths below the destination keep the order of the list ----

  lemma PrefixUnder(d: Path, a: Path, b: Path)
    ensures d + a <= d + b <==> a <= b
    ensures d + a == d + b <==> a == b
    ensures d + a < d + b <==> a < b
  {
    if d + a <= d + b {
      assert a == (d + a)[|d|..] && b[..|a|] == (d + b)[|d|..|d| + |a|];
    }
    if a <= b {
      assert d + b == d + a + b[|a|..];
    }
  }

  /** Of two entries, the later is never at or above the earlier, and lies under it only if that is a directory. */
  lemma Order(job: Job, i: nat, j: nat)
    requires WellFormed(job.list) && i < j < |job.list.entries|
    ensures !(Where(job, j) <= Where(job, i))
    ensures Where(job, i) <= Where(job, j) ==> Where(job, i) < Where(job, j) && Entry(job, i).kind == Directory
    ensures Where(job, i) != [] && Entry(job, i).path != []
  {
    PrefixUnder(job.cfg.dest, Entry(job, i).path, Entry(job, j).path);
    PrefixUnder(job.cfg.dest, Entry(job, j).path, Entry(job, i).path);
  }

  // ---- One step, seen from another path ----

  lemma NoShareKept(fs: FS, after: FS, p: Path, a: Path, b: Path)
    requires Valid(fs) && Effect(fs, after, p) && a != b && !Shares(fs, a, b)
    ensures !Shares(after, a, b)
  {
    if after != fs {
      assert a !in fs.names && a != p && a in after.names ==> IsDir(after, a);
      assert b !in fs.names && b != p && b in after.names ==> IsDir(after, b);
    }
  }

  lemma DistinctKept(job: Job, fs: FS, after: FS, p: Path)
    requires WellFormed(job.list) && Safe(job, fs) && Effect(fs, after, p)
    ensures Safe(job, after)
  {
    hide Effect, Valid;
    forall i, j | 0 <= i < j < |job.list.entries| && Own(job, i) && Own(job, j) ensures !Shares(after, Where(job, i), Where(job, j)) {
      hide WellFormed;
      Order(job, i, j);
      NoShareKept(fs, after, p, Where(job, i), Where(job, j));
    }
    EffectIsValid(fs, after, p);
  }

  lemma EffectIsValid(fs: FS, after: FS, p: Path)
    requires Effect(fs, after, p)
    ensures Valid(after)
  {
  }

  /** Handling entry k leaves a later entry j exactly as it was. */
  lemma LaterUntouched(job: Job, fs: FS, after: FS, k: nat, j: nat)
    requires WellFormed(job.list) && Safe(job, fs) && k < j < |job.list.entries| && Own(job, j)
    requires Effect(fs, after, Where(job, k)) && Acts(job, Entry(job, k), fs, after)
    ensures Untouched(fs, after, Where(job, j))
  {
    var p, q := Where(job, k), Where(job, j);
    Order(job, k, j);
    if after != fs {
      assert Own(job, k) && !Shares(fs, p, q);
      LstatUnmoved(fs, after, p, q);
      WorksAt(fs, after, p, q);
    }
  }

  // ---- Any number of entries: what lies ahead ----

  /** The file system after the first k entries. */
  function FsAfter(job: Job, start: FS, k: nat): FS
    requires k <= |job.list.entries|
  {
    match After(job, start, k)
    case Ok(pr) => pr.st.fs
    case Err(_) => start
  }

  /** The destination is still unaliased and entries from k on are as they were at the start. */
  ghost predicate Ahead(job: Job, start: FS, fs: FS, k: nat)
    requires k <= |job.list.entries|
  {
    && Safe(job, fs)
    && (forall j :: k <= j < |job.list.entries| && Own(job, j) ==> Untouched(start, fs, Where(job, j)))
  }

  lemma StepActs(job: Job, start: FS, k: nat)
    requires k < |job.list.entries| && After(job, start, k).Ok? && After(job, start, k + 1).Ok?
    requires WellFormed(job.list) && Plain(job.cfg) && Valid(FsAfter(job, start, k))
    ensures Effect(FsAfter(job, start, k), FsAfter(job, start, k + 1), Where(job, k))
    ensures Acts(job, Entry(job, k), FsAfter(job, start, k), FsAfter(job, start, k + 1))
  {
    hide Effect, Acts;
    assert Entry(job, k).path != [];
    EntryEffect(job, Entry(job, k), After(job, start, k).value);
  }

  lemma AheadGrows(job: Job, start: FS, fs: FS, after: FS, k: nat)
    requires WellFormed(job.list) && k < |job.list.entries| && Ahead(job, start, fs, k)
    requires Effect(fs, after, Where(job, k)) && Acts(job, Entry(job, k), fs, after)
    ensures Ahead(job, start, after, k + 1)
  {
    hide Effect, Acts, WellFormed, Own, Distinct, Valid;
    DistinctKept(job, fs, after, Where(job, k));
    hide Safe;
    forall j | k < j < |job.list.entries| && Own(job, j) ensures Untouched(start, after, Where(job, j)) {
      assert Untouched(start, fs, Where(job, j));
      LaterUntouched(job, fs, after, k, j);
    }
  }

  /** The key invariant: after any number of entries, no later entry's path has been touched. */
  lemma {:induction false} NothingAheadTouched(job: Job, start: FS, k: nat)
    requires Sound(job, start) && k <= |job.list.entries| && After(job, start, k).Ok?
    ensures Ahead(job, start, FsAfter(job, start, k), k)
  {
    hide WellFormed, Acts, Effect, Valid, Distinct;
    if k > 0 {
      NothingAheadTouched(job, start, k - 1);
      StepActs(job, start, k - 1);
      hide Ahead;
      AheadGrows(job, start, FsAfter(job, start, k - 1), FsAfter(job, start, k), k - 1);
    }
  }

  /** Every step of a sound run acts on its own entry's path. */
  lemma ActsAt(job: Job, start: FS, k: nat)
    requires Sound(job, start) && k < |job.list.entries| && After(job, start, k + 1).Ok?
    ensures After(job, start, k).Ok? && Safe(job, FsAfter(job, start, k))
    ensures Effect(FsAfter(job, start, k), FsAfter(job, start, k + 1), Where(job, k))
    ensures Acts(job, Entry(job, k), FsAfter(job, start, k), FsAfter(job, start, k + 1))
  {
    hide WellFormed, Effect, Acts, Valid, Distinct, SyncEntry;
    NothingAheadTouched(job, start, k);
    StepActs(job, start, k);
  }

  // ---- Any number of entries: what lies behind ----

  /** What entry i's path is like from the moment it is handled until the final passes. */
  ghost predicate Done(job: Job, i: nat, start: FS, fs: FS)
    requires i < |job.list.entries|
  {
    var e := Entry(job, i);
    match e.kind
    case Directory => IsDir(fs, Where(job, i))
    case Symlinked => job.cfg.attrs.links ==> Linked(job.cfg, e, fs)
    case Regular => Own(job, i) ==> Stored(job.cfg, e, FinalContent(job, e, ContentAt(start, Where(job, i))), fs)
  }

  lemma StepDone(job: Job, start: FS, k: nat)
    requires k < |job.list.entries| && After(job, start, k).Ok? && After(job, start, k + 1).Ok?
    requires Sound(job, start) && Honest(job, start) && Ahead(job, start, FsAfter(job, start, k), k)
    ensures Done(job, k, start, FsAfter(job, start, k + 1))
  {
    var e, pr := Entry(job, k), After(job, start, k).value;
    assert e.path != [];
    if Transfers(job.list, e) {
      assert Untouched(start, pr.st.fs, Where(job, k));
      assert NoCollision(job, e, start);
      TransferIsDone(job, e, start, pr);
    } else {
      StepActs(job, start, k);
    }
  }

  lemma TransferIsDone(job: Job, e: FileEntry, start: FS, pr: Progress)
    requires Valid(pr.st.fs) && Plain(job.cfg) && e.path != [] && Wire.Inverts(job.cfg.codec)
    requires Transfers(job.list, e) && SyncEntry(job, e, pr).Ok?
    requires NoCollision(job, e, start) && Lookup(pr.st.fs, At(job.cfg, e)) == Lookup(start, At(job.cfg, e))
    ensures Stored(job.cfg, e, FinalContent(job, e, ContentAt(start, At(job.cfg, e))), SyncEntry(job, e, pr).value.st.fs)
  {
    hide SyncEntry, Effect, Rebuilt, Stored, FinalContent;
    TransferEffect(job, e, pr);
    RebuiltIsFinal(job, e, pr.st.fs);
  }

  /** Handling entry k leaves an earlier entry i done. */
  lemma EarlierKept(job: Job, start: FS, fs: FS, after: FS, i: nat, k: nat)
    requires WellFormed(job.list) && Safe(job, fs) && i < k < |job.list.entries|
    requires Effect(fs, after, Where(job, k)) && Acts(job, Entry(job, k), fs, after)
    requires Done(job, i, start, fs)
    ensures Done(job, i, start, after)
  {
    var p, q := Where(job, k), Where(job, i);
    Order(job, i, k);
    if after != fs && Own(job, i) {
      assert Own(job, k) && !Shares(fs, q, p);
      WorksAt(fs, after, p, q);
    }
  }

  ghost predicate Behind(job: Job, start: FS, fs: FS, k: nat)
    requires k <= |job.list.entries|
  {
    forall i :: 0 <= i < k ==> Done(job, i, start, fs)
  }

  lemma BehindGrows(job: Job, start: FS, fs: FS, after: FS, k: nat)
    requires WellFormed(job.list) && k < |job.list.entries| && Safe(job, fs) && Behind(job, start, fs, k)
    requires Effect(fs, after, Where(job, k)) && Acts(job, Entry(job, k), fs, after) && Done(job, k, start, after)
    ensures Behind(job, start, after, k + 1)
  {
    hide WellFormed, Safe, Effect, Acts, Own, Done;
    forall i | 0 <= i < k ensures Done(job, i, start, after) {
      assert Done(job, i, start, fs);
      EarlierKept(job, start, fs, after, i, k);
    }
  }

  /** After any number of entries, every entry so far is in its final form but for directory attributes. */
  lemma {:induction false} EverythingBehindDone(job: Job, start: FS, k: nat)
    requires Sound(job, start) && Honest(job, start) && k <= |job.list.entries| && After(job, start, k).Ok?
    ensures Behind(job, start, FsAfter(job, start, k), k)
  {
    if k > 0 {
      EverythingBehindDone(job, start, k - 1);
      NothingAheadTouched(job, start, k - 1);
      hide WellFormed, Acts, Effect, Valid, Distinct, Done, Behind, Honest;
      StepActs(job, start, k - 1);
      StepDone(job, start, k - 1);
      BehindGrows(job, start, FsAfter(job, start, k - 1), FsAfter(job, start, k), k - 1);
    }
  }
}
