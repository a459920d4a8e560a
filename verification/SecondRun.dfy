/** A second sync right after a successful one succeeds: every call it makes finds what the first one left. */
module SecondRun {
  import opened Prelude
  import opened FileSystem
  import opened Entries
  import opened Attributes
  import opened Blocks
  import opened Delta
  import opened Receiver
  import opened SyncRun
  import opened Effects
  import opened Runs
  import opened FinalPasses
  import opened EndToEnd
  import opened Idempotence
  import opened Contents
  import opened PartialDirs
  import opened PartialMisses
  import opened Names
  import Members
  import Itemize
  import Wire

  // ---- One entry ----

  lemma DirAgain(cfg: Config, e: FileEntry, st: State)
    requires IsDir(st.fs, At(cfg, e))
    ensures ReceiveDir(cfg, e, st).Ok?
  {
    hide Itemize.ItemizeDir;
  }

  lemma LinkAgain(cfg: Config, e: FileEntry, st: State)
    requires Valid(st.fs) && At(cfg, e) != [] && e.kind == Symlinked && e.target != "" && (cfg.attrs.links ==> Linked(cfg, e, st.fs))
    ensures ReceiveSymlink(cfg, e, st).Ok?
  {
    hide Itemize.ItemizeSymlink, MkdirAll, ApplyAttributes, Valid;
    if cfg.attrs.links {
      NamedHasParent(st.fs, At(cfg, e));
      StandsAlready(cfg.proc, st.fs, Parent(At(cfg, e)));
      TargetAgain(cfg.proc, st.fs, e, At(cfg, e), cfg.attrs);
    }
  }

  lemma StandsAlready(proc: Process, fs: FS, d: Path)
    requires IsDir(fs, d)
    ensures MkdirAll(proc, fs, d) == Ok(fs)
  {
  }

  lemma TargetAgain(proc: Process, fs: FS, e: FileEntry, p: Path, opts: AttrOptions)
    requires Valid(fs) && p != [] && e.kind == Symlinked && e.target != "" && Lookup(fs, p).Some? && Lookup(fs, p).value.Link?
    ensures ApplyAttributes(proc, fs, e, p, opts).Ok?
  {
    hide Valid, WithOwnership;
    assert Remove(proc, fs, p).Ok?;
    var gone := Remove(proc, fs, p).value;
    RemoveWorks(proc, fs, p);
    ParentStays(proc, fs, p);
    hide Remove;
    SymlinkWorks(proc, gone, p, e.target);
    hide Symlink;
  }

  lemma ParentStays(proc: Process, fs: FS, p: Path)
    requires Valid(fs) && p in fs.names && p != [] && Remove(proc, fs, p).Ok?
    ensures IsDir(Remove(proc, fs, p).value, Parent(p)) && p !in Remove(proc, fs, p).value.names
  {
    RemoveWorks(proc, fs, p);
    assert Parent(p) != p;
    hide Remove;
    assert ShapeAt(Remove(proc, fs, p).value, Parent(p)) == ShapeAt(fs, Parent(p));
  }

  lemma FileAgain(job: Job, e: FileEntry, pr: Progress)
    requires Valid(pr.st.fs) && Plain(job.cfg) && !job.cfg.ropts.AppendMode() && Wire.Inverts(job.cfg.codec)
    requires Transfers(job.list, e) && At(job.cfg, e) != [] && e.path in job.src && Stored(job.cfg, e, job.src[e.path], pr.st.fs)
    requires CollisionFree(job.cfg.digest, job.src[e.path], DEFAULT_BLOCK_SIZE, job.src[e.path])
    ensures SyncEntry(job, e, pr).Ok?
  {
    hide CollisionFree, SyncEntry, Transfers, Valid;
    assert IsFile(pr.st.fs, At(job.cfg, e));
    NamedHasParent(pr.st.fs, At(job.cfg, e));
    ExchangeSucceeds(job, e, pr);
  }

  lemma EntryAgain(job: Job, i: nat, pr: Progress)
    requires i < |job.list.entries| && Valid(pr.st.fs) && Plain(job.cfg) && !job.cfg.ropts.AppendMode() && Wire.Inverts(job.cfg.codec)
    requires Stable(job) && SelfHonest(job) && Entry(job, i).path != []
    requires Own(job, i) ==> UpToDate(job, Entry(job, i), pr.st.fs)
    requires Entry(job, i).kind == Symlinked && job.cfg.attrs.links ==> Entry(job, i).target != ""
    ensures SyncEntry(job, Entry(job, i), pr).Ok?
  {
    var e := Entry(job, i);
    assert At(job.cfg, e) != [];
    hide CollisionFree, Stored, Linked, ReceiveDir, Valid;
    if Transfers(job.list, e) {
      FileAgain(job, e, pr);
    } else if e.kind == Directory {
      DirAgain(job.cfg, e, pr.st);
    } else if e.kind == Symlinked && job.cfg.attrs.links {
      LinkAgain(job.cfg, e, pr.st);
    }
  }

  /** A symlink that was placed had a target. */
  lemma TargetWasGiven(job: Job, start: FS, i: nat)
    requires Run(job, start).Ok? && !job.cfg.ropts.dryRun && i < |job.list.entries|
    ensures Entry(job, i).kind == Symlinked && job.cfg.attrs.links ==> Entry(job, i).target != ""
  {
    hide After, Passes;
    EarlierSucceeds(job, start, i + 1, |job.list.entries|);
    TargetOfEntry(job, start, i);
  }

  lemma TargetOfEntry(job: Job, start: FS, i: nat)
    requires i < |job.list.entries| && !job.cfg.ropts.dryRun && After(job, start, i + 1).Ok?
    ensures Entry(job, i).kind == Symlinked && job.cfg.attrs.links ==> Entry(job, i).target != ""
  {
    hide Itemize.ItemizeSymlink, MkdirAll, ApplyLinkOwner, Lstat;
  }

  /** Any number of entries of the second run succeed. */
  lemma {:induction false} EntriesAgain(job: Job, next: Job, start: FS, k: nat)
    requires Sound(job, start) && Honest(job, start) && Run(job, start).Ok? && !job.cfg.ropts.AppendMode()
    requires Again(job, next) && Stable(job) && SelfHonest(job) && k <= |job.list.entries|
    ensures After(next, Final(job, start), k).Ok?
  {
    hide Run, SyncEntry, WellFormed, Safe, Final, UpToDate, NoCollision, CollisionFree;
    if k > 0 {
      EntriesAgain(job, next, start, k - 1);
      var done := Final(job, start);
      SecondRunIsSound(job, next, start);
      NothingAheadTouched(next, done, k - 1);
      RunSettles(job, start, k - 1);
      SettledIsUpToDate(job, next, start, done, k - 1);
      SameHypotheses(job, next);
      StillUpToDate(next, k - 1, done, FsAfter(next, done, k - 1));
      TargetWasGiven(job, start, k - 1);
      PathIsNotRoot(next.list, k - 1);
      EntryAgain(next, k - 1, After(next, done, k - 1).value);
    }
  }

  lemma PathIsNotRoot(list: FileList, i: nat)
    requires WellFormed(list) && i < |list.entries|
    ensures list.entries[i].path != []
  {
  }

  // ---- The link pass ----

  /** Every path in a group names a regular file. */
  ghost predicate MembersAreFiles(job: Job, fs: FS) {
    forall g, n :: 0 <= g < |job.list.groups| && 0 <= n < |job.list.groups[g]| ==> IsFile(fs, job.cfg.dest + job.list.groups[g][n])
  }

  /** Relinking a file to another succeeds. */
  lemma MemberAgain(cfg: Config, first: Path, member: Path, fs: FS)
    requires Valid(fs) && member != [] && first != member && IsFile(fs, cfg.dest + first) && IsFile(fs, cfg.dest + member)
    ensures LinkMember(cfg, first, member, fs).Ok?
  {
    var f, m := cfg.dest + first, cfg.dest + member;
    PrefixUnder(cfg.dest, first, member);
    NamedHasParent(fs, m);
    assert MkdirAll(cfg.proc, fs, Parent(m)) == Ok(fs);
    assert Remove(cfg.proc, fs, m).Ok?;
    var gone := Remove(cfg.proc, fs, m).value;
    ParentStays(cfg.proc, fs, m);
    RemoveWorks(cfg.proc, fs, m);
    hide Remove, Valid, MkdirAll;
    assert ShapeAt(gone, f) == ShapeAt(fs, f);
  }

  lemma StaysFile(fs: FS, after: FS, q: Path)
    requires Stays(fs, after, q) && IsFile(fs, q)
    ensures IsFile(after, q)
  {
    assert ShapeAt(after, q) == ShapeAt(fs, q);
  }

  /** Through the groups before g, members of later groups, and all firsts, stay the files they are. */
  lemma LaterStays(job: Job, fs: FS, g: nat, n: nat)
    requires WellFormed(job.list) && Valid(fs) && MembersAreFiles(job, fs) && g < |job.list.groups| && n < |job.list.groups[g]|
    requires LinkPass(job.cfg, job.list.groups, g, fs).Ok?
    ensures Valid(LinkPass(job.cfg, job.list.groups, g, fs).value)
    ensures IsFile(LinkPass(job.cfg, job.list.groups, g, fs).value, job.cfg.dest + job.list.groups[g][n])
  {
    hide WellFormed, Valid, Stays, LinkPass;
    PassStays(job, fs, g, g, n);
    StaysFile(fs, LinkPass(job.cfg, job.list.groups, g, fs).value, job.cfg.dest + job.list.groups[g][n]);
  }

  ghost predicate GroupAreFiles(cfg: Config, g: Group, fs: FS) {
    forall n :: 0 <= n < |g| ==> IsFile(fs, cfg.dest + g[n])
  }

  lemma {:induction false} GroupAgain(job: Job, fs: FS, g: nat, k: nat)
    requires WellFormed(job.list) && Valid(fs) && g < |job.list.groups| && k <= |job.list.groups[g]| && GroupAreFiles(job.cfg, job.list.groups[g], fs)
    ensures LinkGroup(job.cfg, job.list.groups[g], k, fs).Ok?
  {
    hide WellFormed, Valid, LinkMember, Stays;
    if k > 1 {
      GroupAgain(job, fs, g, k - 1);
      var group, before := job.list.groups[g], LinkGroup(job.cfg, job.list.groups[g], k - 1, fs).value;
      MembersDiffer(job, g, 0, g, k - 1);
      MemberIsSecondary(job.list, g, k - 1);
      GroupMemberStays(job, fs, g, k - 1, 0);
      GroupMemberStays(job, fs, g, k - 1, k - 1);
      MemberAgain(job.cfg, group[0], group[k - 1], before);
    }
  }

  /** The first member, and those not reached yet, are left alone. */
  lemma GroupMemberStays(job: Job, fs: FS, g: nat, k: nat, n: nat)
    requires WellFormed(job.list) && Valid(fs) && g < |job.list.groups| && k <= |job.list.groups[g]| && GroupAreFiles(job.cfg, job.list.groups[g], fs)
    requires n < |job.list.groups[g]| && (n == 0 || k <= n) && LinkGroup(job.cfg, job.list.groups[g], k, fs).Ok?
    ensures IsFile(LinkGroup(job.cfg, job.list.groups[g], k, fs).value, job.cfg.dest + job.list.groups[g][n])
    ensures Valid(LinkGroup(job.cfg, job.list.groups[g], k, fs).value)
  {
    hide WellFormed, Valid, LinkGroup, Stays;
    var q := job.cfg.dest + job.list.groups[g][n];
    forall j | 1 <= j < k ensures q != job.cfg.dest + job.list.groups[g][j] {
      MembersDiffer(job, g, n, g, j);
    }
    GroupStays(job, fs, g, k, q);
    StaysFile(fs, LinkGroup(job.cfg, job.list.groups[g], k, fs).value, q);
  }

  lemma {:induction false} LinksAgain(job: Job, fs: FS, k: nat)
    requires WellFormed(job.list) && Valid(fs) && MembersAreFiles(job, fs) && k <= |job.list.groups|
    ensures LinkPass(job.cfg, job.list.groups, k, fs).Ok?
  {
    hide WellFormed, Valid, LinkGroup, MembersAreFiles;
    if k > 0 {
      LinksAgain(job, fs, k - 1);
      var before := LinkPass(job.cfg, job.list.groups, k - 1, fs).value;
      var group := job.list.groups[k - 1];
      forall n | 0 <= n < |group| ensures IsFile(before, job.cfg.dest + group[n]) {
        LaterStays(job, fs, k - 1, n);
      }
      GroupsHaveTwo(job.list, k - 1);
      LaterStays(job, fs, k - 1, 0);
      GroupAgain(job, before, k - 1, |group|);
    }
  }

  // ---- The directory pass ----

  lemma PlainAgain(fs: FS, e: FileEntry, p: Path, opts: AttrOptions)
    requires IsDir(fs, p)
    ensures ApplyPlain(fs, e, p, opts).Ok?
  {
  }

  lemma {:induction false} StampsAgain(job: Job, fs: FS, k: nat)
    requires WellFormed(job.list) && k <= |job.list.entries| && Valid(fs) && DirsExist(job, fs)
    ensures DirPass(job.cfg, job.list.entries, k, fs).Ok?
    decreases k
  {
    hide Stamped, Valid, WellFormed, DirsExist, ApplyPlain;
    if k > 0 {
      var e := Entry(job, k - 1);
      if e.kind != Directory {
        StampsAgain(job, fs, k - 1);
      } else {
        DirExists(job, k - 1, fs);
        PlainAgain(fs, e, Where(job, k - 1), job.cfg.attrs);
        var one := ApplyPlain(fs, e, Where(job, k - 1), job.cfg.attrs).value;
        StampOne(job, k - 1, fs);
        StampedIsValid(job, k, fs, one);
        StampedKeepsDirs(job, k - 1, fs, one);
        StampsAgain(job, one, k - 1);
      }
    }
  }

  // ---- The whole run ----

  /** After a successful run every listed regular path names a file. */
  lemma FilesAreThere(job: Job, start: FS, g: nat, n: nat)
    requires Sound(job, start) && Honest(job, start) && Run(job, start).Ok? && !job.cfg.ropts.AppendMode()
    requires g < |job.list.groups| && n < |job.list.groups[g]|
    ensures IsFile(Final(job, start), job.cfg.dest + job.list.groups[g][n])
  {
    hide Run, Honest, Final, Safe;
    var p := job.list.groups[g][n];
    assert Listed(job.list, p);
    var i :| 0 <= i < |job.list.entries| && job.list.entries[i].kind == Regular && job.list.entries[i].path == p;
    if Own(job, i) {
      SourceArrives(job, start, i);
    } else {
      var l := SecondaryContent(job, start, i);
    }
    assert ContentAt(Final(job, start), Where(job, i)).Some?;
  }

  /** And the second run's entries leave it one. */
  lemma MembersStayFiles(job: Job, done: FS, k: nat, g: nat, n: nat)
    requires Sound(job, done) && k == |job.list.entries| && After(job, done, k).Ok?
    requires g < |job.list.groups| && n < |job.list.groups[g]| && IsFile(done, job.cfg.dest + job.list.groups[g][n])
    ensures IsFile(FsAfter(job, done, k), job.cfg.dest + job.list.groups[g][n])
  {
    var q := job.cfg.dest + job.list.groups[g][n];
    hide Safe, After, FsAfter, Valid, Distinct;
    if n > 0 {
      assert Valid(done) by {
        SafeIsValid(job, done);
      }
      assert Apart(job);
      Members.MemberIsUntouchable(job, g, n);
      hide Stays, Untouchable;
      StaysSoFar(job, done, k, q);
      FsAfterIs(job, done, k);
      StaysFile(done, FsAfter(job, done, k), q);
    } else {
      FirstTransfers(job.list, g);
      assert Listed(job.list, job.list.groups[g][0]);
      var i :| 0 <= i < |job.list.entries| && job.list.entries[i].kind == Regular && job.list.entries[i].path == job.list.groups[g][0];
      hide WellFormed;
      TransferredIsFile(job, done, k, i);
      assert Where(job, i) == q;
    }
  }

  lemma SafeIsValid(job: Job, fs: FS)
    requires Safe(job, fs)
    ensures Valid(fs)
  {
  }

  lemma FsAfterIs(job: Job, start: FS, k: nat)
    requires k <= |job.list.entries| && After(job, start, k).Ok?
    ensures FsAfter(job, start, k) == After(job, start, k).value.st.fs
  {
  }

  lemma {:induction false} TransferredIsFile(job: Job, start: FS, k: nat, i: nat)
    requires Sound(job, start) && k <= |job.list.entries| && After(job, start, k).Ok? && i < k && Transfers(job.list, Entry(job, i))
    ensures IsFile(FsAfter(job, start, k), Where(job, i))
  {
    hide SyncEntry, WellFormed, Safe, Effect, FsAfter;
    if i < k - 1 {
      TransferredIsFile(job, start, k - 1, i);
      NotTheSame(job, i, k - 1);
      hide Sound;
      StepKeeps(job, start, k - 1, Where(job, i));
      assert ShapeAt(FsAfter(job, start, k), Where(job, i)) == ShapeAt(FsAfter(job, start, k - 1), Where(job, i));
    } else {
      ActsAt(job, start, i);
    }
  }

  lemma DirsAreThere(job: Job, start: FS)
    requires Sound(job, start) && After(job, start, |job.list.entries|).Ok?
    ensures DirsExist(job, FsAfter(job, start, |job.list.entries|)) && Valid(FsAfter(job, start, |job.list.entries|))
  {
    hide WellFormed, Distinct, After, FsAfter;
    NothingAheadTouched(job, start, |job.list.entries|);
    forall i | 0 <= i < |job.list.entries| && Entry(job, i).kind == Directory
      ensures IsDir(FsAfter(job, start, |job.list.entries|), Where(job, i))
    {
      DirIsThere(job, start, |job.list.entries|, i);
    }
  }

  /** The second run succeeds. */
  lemma SecondRunSucceeds(job: Job, next: Job, start: FS)
    requires Sound(job, start) && Honest(job, start) && Run(job, start).Ok? && !job.cfg.ropts.AppendMode()
    requires Again(job, next) && Stable(job) && SelfHonest(job)
    ensures Run(next, Final(job, start)).Ok?
  {
    var done, n := Final(job, start), |job.list.entries|;
    EntriesAgain(job, next, start, n);
    SecondRunIsSound(job, next, start);
    forall g, m | 0 <= g < |job.list.groups| && 0 <= m < |job.list.groups[g]| ensures IsFile(FsAfter(next, done, n), job.cfg.dest + job.list.groups[g][m]) {
      FilesAreThere(job, start, g, m);
      hide Final;
      MembersStayFiles(next, done, n, g, m);
    }
    hide Final, Honest, After, FsAfter, LinkPass, DirPass, Stable, SelfHonest;
    PassesAgain(next, done);
    FsAfterIs(next, done, n);
  }

  lemma PassesAgain(job: Job, start: FS)
    requires Sound(job, start) && After(job, start, |job.list.entries|).Ok?
    requires MembersAreFiles(job, FsAfter(job, start, |job.list.entries|))
    ensures Passes(job.cfg, job.list, FsAfter(job, start, |job.list.entries|)).Ok?
  {
    hide Safe, FsAfter, After, WellFormed, MembersAreFiles, DirsExist, LinkPass, DirPass, Valid, Keeps, LinkedUpTo;
    var mid := FsAfter(job, start, |job.list.entries|);
    DirsAreThere(job, start);
    LinksAgain(job, mid, |job.list.groups|);
    LinkPassHolds(job, mid, |job.list.groups|);
    var linked := LinkPass(job.cfg, job.list.groups, |job.list.groups|, mid).value;
    DirSurvivesLinks(job, mid, linked);
    KeepsIsValid(job, mid, linked);
    StampsAgain(job, linked, |job.list.entries|);
  }

  /**
   * Syncing again after a successful sync, with the same options: the second
   * run succeeds, rewrites no file, reports nothing but hard-link members, and
   * sends of each file only the short block at its end.
   */
  lemma SyncingAgainChangesNothing(job: Job, next: Job, start: FS)
    requires Sound(job, start) && Honest(job, start) && Run(job, start).Ok? && !job.cfg.ropts.AppendMode()
    requires Again(job, next) && Stable(job) && SelfHonest(job)
    ensures Run(next, Final(job, start)).Ok?
    ensures var second := Run(next, Final(job, start)).value;
      && second.st.stats.transferred == 0
      && second.st.lines == MemberLines(job, |job.list.entries|)
      && second.st.stats.literal == Remainders(job, |job.list.entries|)
    ensures forall i :: 0 <= i < |job.list.entries| && Transfers(job.list, Entry(job, i)) ==>
      ContentAt(Final(next, Final(job, start)), Where(job, i)) == ContentAt(Final(job, start), Where(job, i))
  {
    hide Sound, Honest, Run, Final, Again, Stable, SelfHonest;
    SecondRunSucceeds(job, next, start);
    SecondRunTransfersNothing(job, next, start);
    forall i | 0 <= i < |job.list.entries| && Transfers(job.list, Entry(job, i))
      ensures ContentAt(Final(next, Final(job, start)), Where(job, i)) == ContentAt(Final(job, start), Where(job, i))
    {
      SecondRunKeepsContents(job, next, start, i);
    }
  }
}
