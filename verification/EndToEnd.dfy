/** What a successful run leaves behind: contents, attributes, links, and everything it did not touch. */
module EndToEnd {
  import opened Prelude
  import opened FileSystem
  import opened Entries
  import opened Attributes
  import opened Receiver
  import opened SyncRun
  import opened Effects
  import opened Runs
  import opened FinalPasses

  function Final(job: Job, start: FS): FS {
    match Run(job, start)
    case Ok(pr) => pr.st.fs
    case Err(_) => start
  }

  // ---- The passes leave the entries of the main loop alone ----

  lemma OwnIsNoMember(job: Job, i: nat)
    requires WellFormed(job.list) && i < |job.list.entries| && Own(job, i)
    ensures !Member(job, Where(job, i))
    ensures Entry(job, i).kind != Directory ==> !AboveMember(job, Where(job, i))
  {
    forall p | Secondary(job.list.groups, p)
      ensures Where(job, i) != job.cfg.dest + p
      ensures Entry(job, i).kind != Directory ==> !(Where(job, i) < job.cfg.dest + p)
    {
      var j := ListedIndex(job, p);
      PrefixUnder(job.cfg.dest, Entry(job, i).path, p);
      if i < j {
        Order(job, i, j);
      } else if j < i {
        Order(job, j, i);
      }
    }
  }

  /** A secondary member is a listed regular file. */
  lemma ListedIndex(job: Job, p: Path) returns (j: nat)
    requires WellFormed(job.list) && Secondary(job.list.groups, p)
    ensures j < |job.list.entries| && Entry(job, j).kind == Regular && Entry(job, j).path == p
  {
    var g :| 0 <= g < |job.list.groups| && job.list.groups[g] != [] && p in job.list.groups[g][1..];
    var n :| 0 <= n < |job.list.groups[g][1..]| && job.list.groups[g][1..][n] == p;
    assert job.list.groups[g][n + 1] == p;
    assert Listed(job.list, p);
    j :| 0 <= j < |job.list.entries| && job.list.entries[j].kind == Regular && job.list.entries[j].path == p;
  }

  lemma NotAListedDir(job: Job, i: nat)
    requires WellFormed(job.list) && i < |job.list.entries| && Entry(job, i).kind != Directory
    ensures !ListedDir(job, |job.list.entries|, Where(job, i))
  {
    forall j | 0 <= j < |job.list.entries| && Entry(job, j).kind == Directory ensures Where(job, j) != Where(job, i) {
      if i < j {
        Order(job, i, j);
      } else {
        Order(job, j, i);
      }
    }
  }

  /** Through the link pass (mid to linked) and the directory pass (linked to done). */
  ghost predicate Passed(job: Job, mid: FS, linked: FS, done: FS) {
    && Valid(mid)
    && Keeps(job, mid, linked)
    && LinkedUpTo(job, linked, |job.list.groups|, 1)
    && Stamped(job, |job.list.entries|, linked, done)
    && DirsAgree(job, |job.list.entries|, done)
  }

  lemma OwnSurvivesPasses(job: Job, mid: FS, linked: FS, done: FS, i: nat)
    requires WellFormed(job.list) && Passed(job, mid, linked, done)
    requires i < |job.list.entries| && Own(job, i) && Entry(job, i).kind != Directory && Where(job, i) in mid.names
    ensures Lookup(done, Where(job, i)) == Lookup(mid, Where(job, i))
    ensures Where(job, i) in done.names && done.names[Where(job, i)] == mid.names[Where(job, i)]
  {
    OwnIsNoMember(job, i);
    NotAListedDir(job, i);
  }

  lemma DirSurvivesLinks(job: Job, mid: FS, linked: FS)
    requires WellFormed(job.list) && Keeps(job, mid, linked) && Valid(mid) && DirsExist(job, mid)
    ensures DirsExist(job, linked)
  {
    forall i | 0 <= i < |job.list.entries| && Entry(job, i).kind == Directory ensures IsDir(linked, Where(job, i)) {
      OwnIsNoMember(job, i);
      assert Where(job, i) in mid.names;
      assert ShapeAt(linked, Where(job, i)) == ShapeAt(mid, Where(job, i));
    }
  }

  /** The state after the last entry, after the links, and at the end of a successful run. */
  lemma RunPasses(job: Job, start: FS) returns (mid: FS, linked: FS)
    requires Sound(job, start) && Run(job, start).Ok?
    ensures After(job, start, |job.list.entries|).Ok?
    ensures mid == FsAfter(job, start, |job.list.entries|)
    ensures Passed(job, mid, linked, Final(job, start))
    ensures Safe(job, mid)
  {
    var n := |job.list.entries|;
    NothingAheadTouched(job, start, n);
    mid := FsAfter(job, start, n);
    forall i | 0 <= i < n && Entry(job, i).kind == Directory ensures IsDir(mid, Where(job, i)) {
      DirIsThere(job, start, n, i);
    }
    linked := LinkPass(job.cfg, job.list.groups, |job.list.groups|, mid).value;
    hide WellFormed, Keeps, LinkedUpTo, Stamped, DirsAgree, Valid, Distinct, DirsExist, LinkPass, DirPass, After;
    LinkPassHolds(job, mid, |job.list.groups|);
    DirSurvivesLinks(job, mid, linked);
    KeepsIsValid(job, mid, linked);
    DirPassHolds(job, linked, n);
  }

  /** The step over entry k keeps every name but its own, with its inode and shape. */
  lemma StepKeeps(job: Job, start: FS, k: nat, q: Path)
    requires Sound(job, start) && k < |job.list.entries| && After(job, start, k).Ok? && After(job, start, k + 1).Ok?
    requires q != Where(job, k) && q in FsAfter(job, start, k).names
    ensures q in FsAfter(job, start, k + 1).names && FsAfter(job, start, k + 1).names[q] == FsAfter(job, start, k).names[q]
    ensures ShapeAt(FsAfter(job, start, k + 1), q) == ShapeAt(FsAfter(job, start, k), q)
  {
    hide WellFormed, Valid, Distinct, Effect, Acts, FsAfter, SyncEntry;
    ActsAt(job, start, k);
    EffectKeepsNames(FsAfter(job, start, k), FsAfter(job, start, k + 1), Where(job, k), q);
  }

  lemma EffectKeepsNames(fs: FS, after: FS, p: Path, q: Path)
    requires Effect(fs, after, p) && q != p && q in fs.names
    ensures q in after.names && after.names[q] == fs.names[q]
    ensures ShapeAt(after, q) == ShapeAt(fs, q)
  {
  }

  /** A listed directory exists once its entry has been handled. */
  lemma {:induction false} DirIsThere(job: Job, start: FS, k: nat, i: nat)
    requires Sound(job, start) && k <= |job.list.entries| && After(job, start, k).Ok?
    requires i < k && Entry(job, i).kind == Directory
    ensures IsDir(FsAfter(job, start, k), Where(job, i))
  {
    hide SyncEntry, WellFormed, Safe, Effect;
    if i < k - 1 {
      DirIsThere(job, start, k - 1, i);
      NotTheSame(job, i, k - 1);
      hide FsAfter, Sound;
      StepKeeps(job, start, k - 1, Where(job, i));
    } else {
      ActsAt(job, start, i);
    }
  }

  lemma NotTheSame(job: Job, i: nat, j: nat)
    requires WellFormed(job.list) && i < j < |job.list.entries|
    ensures Where(job, i) != Where(job, j)
  {
    Order(job, i, j);
  }

  // ---- Main results ----

  /** Entry i as the run leaves it: bytes and attributes, link target and owner, or directory attributes. */
  ghost predicate Settled(job: Job, i: nat, start: FS, fs: FS)
    requires i < |job.list.entries|
  {
    Done(job, i, start, fs) && (Entry(job, i).kind == Directory ==> DirAgrees(job, i, fs))
  }

  /** After a successful run every entry is settled, in any write mode. */
  lemma RunSettles(job: Job, start: FS, i: nat)
    requires Sound(job, start) && Honest(job, start) && Run(job, start).Ok? && i < |job.list.entries|
    ensures Settled(job, i, start, Final(job, start))
  {
    var n := |job.list.entries|;
    var mid, linked := RunPasses(job, start);
    EverythingBehindDone(job, start, n);
    assert Done(job, i, start, mid);
    if Own(job, i) && Entry(job, i).kind != Directory && (Entry(job, i).kind == Symlinked ==> job.cfg.attrs.links) {
      OwnSurvivesPasses(job, mid, linked, Final(job, start), i);
    }
  }

  /**
   * End to end: without an append mode, a run that succeeds leaves every
   * transferred path with exactly the source's bytes.
   */
  lemma SourceArrives(job: Job, start: FS, i: nat)
    requires Sound(job, start) && Honest(job, start) && Run(job, start).Ok?
    requires !job.cfg.ropts.AppendMode()
    requires i < |job.list.entries| && Transfers(job.list, Entry(job, i))
    ensures Entry(job, i).path in job.src
    ensures ContentAt(Final(job, start), Where(job, i)) == Some(job.src[Entry(job, i).path])
  {
    RunSettles(job, start, i);
    SourceWasRead(job, start, |job.list.entries|, i);
  }

  /** A transferred file was read at the source, unless an append mode skipped it. */
  lemma {:induction false} SourceWasRead(job: Job, start: FS, k: nat, i: nat)
    requires k <= |job.list.entries| && After(job, start, k).Ok? && i < k
    requires !job.cfg.ropts.AppendMode() && Transfers(job.list, Entry(job, i))
    ensures Entry(job, i).path in job.src
  {
    if i < k - 1 {
      SourceWasRead(job, start, k - 1, i);
    }
  }

  /** Whether handling entry i can touch its path: all but symlinks without --links. */
  predicate Acted(job: Job, i: nat)
    requires i < |job.list.entries|
  {
    Entry(job, i).kind != Symlinked || job.cfg.attrs.links
  }

  lemma {:induction false} OthersKept(job: Job, start: FS, k: nat, q: Path)
    requires Sound(job, start) && k <= |job.list.entries| && After(job, start, k).Ok?
    requires q in start.names && forall i :: 0 <= i < k && Acted(job, i) ==> q != Where(job, i)
    ensures q in FsAfter(job, start, k).names && FsAfter(job, start, k).names[q] == start.names[q]
    ensures ShapeAt(FsAfter(job, start, k), q) == ShapeAt(start, q)
  {
    hide SyncEntry, WellFormed, Safe, Effect;
    if k > 0 {
      OthersKept(job, start, k - 1, q);
      if Acted(job, k - 1) {
        hide FsAfter, Sound;
        StepKeeps(job, start, k - 1, q);
      } else {
        ActsAt(job, start, k - 1);
      }
    }
  }

  /** Nothing the list does not name changes: kind, content, link target and inode all stay. */
  lemma UnlistedUnchanged(job: Job, start: FS, q: Path)
    requires Sound(job, start) && Run(job, start).Ok?
    requires q in start.names && forall i :: 0 <= i < |job.list.entries| && Acted(job, i) ==> q != Where(job, i)
    ensures q in Final(job, start).names && Final(job, start).names[q] == start.names[q]
    ensures ShapeAt(Final(job, start), q) == ShapeAt(start, q)
  {
    var mid, linked := RunPasses(job, start);
    OthersKept(job, start, |job.list.entries|, q);
    assert !Member(job, q) by {
      forall p | Secondary(job.list.groups, p) ensures q != job.cfg.dest + p {
        var j := ListedIndex(job, p);
        assert Acted(job, j);
      }
    }
  }

  // ---- Hard links ----

  predicate SameGroup(groups: seq<Group>, p: Path, q: Path) {
    exists g :: 0 <= g < |groups| && p in groups[g] && q in groups[g]
  }

  /** No two entries of the main loop share an inode at the end either. */
  lemma FinalIsDistinct(job: Job, start: FS, i: nat, j: nat)
    requires Sound(job, start) && Run(job, start).Ok?
    requires i < j < |job.list.entries| && Own(job, i) && Own(job, j)
    ensures !Shares(Final(job, start), Where(job, i), Where(job, j))
  {
    var mid, linked := RunPasses(job, start);
    var done := Final(job, start);
    Order(job, i, j);
    OwnIsNoMember(job, i);
    OwnIsNoMember(job, j);
    assert !Shares(mid, Where(job, i), Where(job, j));
    hide Run, After;
    NameAfterPasses(job, mid, linked, done, Where(job, i));
    NameAfterPasses(job, mid, linked, done, Where(job, j));
    UnsharedDirs(done, Where(job, i), Where(job, j));
  }

  lemma NameAfterPasses(job: Job, mid: FS, linked: FS, done: FS, q: Path)
    requires Passed(job, mid, linked, done) && !Member(job, q)
    ensures q in mid.names ==> q in done.names && done.names[q] == mid.names[q]
    ensures q in done.names && q !in mid.names ==> IsDir(done, q)
    ensures Valid(done)
  {
    assert ShapeAt(done, q) == ShapeAt(linked, q);
  }

  lemma UnsharedDirs(fs: FS, p: Path, q: Path)
    requires Valid(fs) && p != q
    ensures IsDir(fs, p) || IsDir(fs, q) ==> !Shares(fs, p, q)
  {
  }

  lemma {:induction false} TransfersExist(job: Job, start: FS, i: nat)
    requires Sound(job, start) && Run(job, start).Ok? && i < |job.list.entries| && Transfers(job.list, Entry(job, i))
    ensures IsFile(Final(job, start), Where(job, i))
  {
    var n := |job.list.entries|;
    var mid, linked := RunPasses(job, start);
    FileStays(job, start, n, i);
    OwnSurvivesPasses(job, mid, linked, Final(job, start), i);
  }

  lemma {:induction false} FileStays(job: Job, start: FS, k: nat, i: nat)
    requires Sound(job, start) && k <= |job.list.entries| && After(job, start, k).Ok?
    requires i < k && Transfers(job.list, Entry(job, i))
    ensures IsFile(FsAfter(job, start, k), Where(job, i)) && Where(job, i) in FsAfter(job, start, k).names
  {
    hide SyncEntry, WellFormed, Safe, Effect;
    if i < k - 1 {
      FileStays(job, start, k - 1, i);
      NotTheSame(job, i, k - 1);
      hide FsAfter, Sound;
      StepKeeps(job, start, k - 1, Where(job, i));
    } else {
      ActsAt(job, start, i);
    }
  }

  /** The index of the entry whose inode a listed regular path ends with: its own, or its group's first member. */
  lemma Leader(job: Job, start: FS, i: nat) returns (l: nat)
    requires Sound(job, start) && Run(job, start).Ok?
    requires i < |job.list.entries| && Entry(job, i).kind == Regular
    ensures l < |job.list.entries| && Transfers(job.list, Entry(job, l))
    ensures Shares(Final(job, start), Where(job, i), Where(job, l))
    ensures l == i || SameGroup(job.list.groups, Entry(job, i).path, Entry(job, l).path)
  {
    hide WellFormed, Safe, Run;
    if Own(job, i) {
      l := i;
      TransfersExist(job, start, i);
    } else {
      var g, n;
      g, n, l := FirstOf(job, i);
      var mid, linked := RunPasses(job, start);
      MemberShares(job, mid, linked, Final(job, start), g, n);
    }
  }

  lemma MemberShares(job: Job, mid: FS, linked: FS, done: FS, g: nat, n: nat)
    requires Passed(job, mid, linked, done) && g < |job.list.groups| && 1 <= n < |job.list.groups[g]|
    ensures Shares(done, job.cfg.dest + job.list.groups[g][n], job.cfg.dest + job.list.groups[g][0])
  {
    assert Shares(linked, job.cfg.dest + job.list.groups[g][n], job.cfg.dest + job.list.groups[g][0]);
  }

  /** The group, the position in it, and the first member's entry, for a secondary member. */
  lemma FirstOf(job: Job, i: nat) returns (g: nat, n: nat, l: nat)
    requires WellFormed(job.list) && i < |job.list.entries| && Secondary(job.list.groups, Entry(job, i).path)
    ensures g < |job.list.groups| && 1 <= n < |job.list.groups[g]| && job.list.groups[g][n] == Entry(job, i).path
    ensures l < |job.list.entries| && Transfers(job.list, Entry(job, l)) && Entry(job, l).path == job.list.groups[g][0]
  {
    var p, groups := Entry(job, i).path, job.list.groups;
    g :| 0 <= g < |groups| && groups[g] != [] && p in groups[g][1..];
    var tail := groups[g][1..];
    var t :| 0 <= t < |tail| && tail[t] == p;
    n := t + 1;
    FirstTransfers(job.list, g);
    assert Listed(job.list, groups[g][0]);
    l :| 0 <= l < |job.list.entries| && job.list.entries[l].kind == Regular && job.list.entries[l].path == groups[g][0];
  }

  /** After the run two listed regular paths name one inode exactly when they are in one group. */
  lemma HardLinksExact(job: Job, start: FS, i: nat, j: nat)
    requires Sound(job, start) && Run(job, start).Ok?
    requires i < j < |job.list.entries| && Entry(job, i).kind == Regular && Entry(job, j).kind == Regular
    ensures Shares(Final(job, start), Where(job, i), Where(job, j))
       <==> SameGroup(job.list.groups, Entry(job, i).path, Entry(job, j).path)
  {
    var l := Leader(job, start, i);
    var m := Leader(job, start, j);
    LeadersDecide(job, i, j, l, m);
    if l < m {
      FinalIsDistinct(job, start, l, m);
    } else if m < l {
      FinalIsDistinct(job, start, m, l);
    }
  }

  lemma OneGroup(list: FileList, g: nat, h: nat, p: Path)
    requires WellFormed(list) && g < |list.groups| && h < |list.groups| && p in list.groups[g] && p in list.groups[h]
    ensures g == h
  {
    var m :| 0 <= m < |list.groups[g]| && list.groups[g][m] == p;
    var n :| 0 <= n < |list.groups[h]| && list.groups[h][n] == p;
  }

  lemma LeaderIsFirst(list: FileList, g: nat, p: Path)
    requires g < |list.groups| && p in list.groups[g] && !Secondary(list.groups, p)
    ensures p == list.groups[g][0]
  {
    var first, tail := list.groups[g][0], list.groups[g][1..];
    assert list.groups[g] == [first] + tail;
    assert p == first || p in tail;
  }

  lemma PathDecides(job: Job, i: nat, j: nat)
    requires WellFormed(job.list) && i < |job.list.entries| && j < |job.list.entries|
    ensures Entry(job, i).path == Entry(job, j).path <==> i == j
  {
  }

  /** Groups are disjoint, so a path's group decides its leader and the leader its group. */
  lemma LeadersDecide(job: Job, i: nat, j: nat, l: nat, m: nat)
    requires WellFormed(job.list) && i < j < |job.list.entries| && l < |job.list.entries| && m < |job.list.entries|
    requires Transfers(job.list, Entry(job, l)) && Transfers(job.list, Entry(job, m))
    requires l == i || SameGroup(job.list.groups, Entry(job, i).path, Entry(job, l).path)
    requires m == j || SameGroup(job.list.groups, Entry(job, j).path, Entry(job, m).path)
    ensures l == m <==> SameGroup(job.list.groups, Entry(job, i).path, Entry(job, j).path)
  {
    hide WellFormed;
    var groups, p, q := job.list.groups, Entry(job, i).path, Entry(job, j).path;
    PathDecides(job, l, m);
    if l == m {
      SharedLeader(job, i, j, l);
    }
    if SameGroup(groups, p, q) {
      var g :| 0 <= g < |groups| && p in groups[g] && q in groups[g];
      LeaderOfMember(job.list, g, p, Entry(job, l).path);
      LeaderOfMember(job.list, g, q, Entry(job, m).path);
    }
  }

  /** Whatever leads a member of group g is the group's first. */
  lemma LeaderOfMember(list: FileList, g: nat, p: Path, leader: Path)
    requires WellFormed(list) && g < |list.groups| && p in list.groups[g] && !Secondary(list.groups, leader)
    requires leader == p || SameGroup(list.groups, p, leader)
    ensures leader == list.groups[g][0]
  {
    if leader != p {
      var h :| 0 <= h < |list.groups| && p in list.groups[h] && leader in list.groups[h];
      OneGroup(list, g, h, p);
    }
    LeaderIsFirst(list, g, leader);
  }

  lemma SharedLeader(job: Job, i: nat, j: nat, l: nat)
    requires WellFormed(job.list) && i < j < |job.list.entries| && l < |job.list.entries|
    requires l == i || SameGroup(job.list.groups, Entry(job, i).path, Entry(job, l).path)
    requires l == j || SameGroup(job.list.groups, Entry(job, j).path, Entry(job, l).path)
    ensures SameGroup(job.list.groups, Entry(job, i).path, Entry(job, j).path)
  {
    var groups := job.list.groups;
    if l != i && l != j {
      var g :| 0 <= g < |groups| && Entry(job, i).path in groups[g] && Entry(job, l).path in groups[g];
      var h :| 0 <= h < |groups| && Entry(job, j).path in groups[h] && Entry(job, l).path in groups[h];
      OneGroup(job.list, g, h, Entry(job, l).path);
    }
  }

  /** A secondary member ends with the bytes of its group's first member's source. */
  lemma SecondaryContent(job: Job, start: FS, i: nat) returns (l: nat)
    requires Sound(job, start) && Honest(job, start) && Run(job, start).Ok?
    requires !job.cfg.ropts.AppendMode()
    requires i < |job.list.entries| && Entry(job, i).kind == Regular && !Own(job, i)
    ensures l < |job.list.entries| && SameGroup(job.list.groups, Entry(job, i).path, Entry(job, l).path)
    ensures Entry(job, l).path in job.src
    ensures ContentAt(Final(job, start), Where(job, i)) == Some(job.src[Entry(job, l).path])
  {
    l := Leader(job, start, i);
    hide Run, Sound, Honest;
    SourceArrives(job, start, l);
  }
}
