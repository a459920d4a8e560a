/**
 * Names, inodes and kinds at every step of every interleaving: what a run
 * never touches, and what becomes of secondary hard-link members.
 */
module Names {
  import opened Prelude
  import opened FileSystem
  import opened Entries
  import opened Delta
  import opened Receiver
  import opened SyncRun
  import opened TempWrite
  import opened LocalSync
  import opened Lockstep
  import opened Effects
  import opened Runs
  import opened FinalPasses
  import opened EndToEnd
  import opened Contents
  import opened PartialDirs
  import opened Atomic
  import Attributes

  /** If q named something it still names the same inode, of the same kind and content. */
  predicate Stays(fs: FS, after: FS, q: Path) {
    q in fs.names ==> q in after.names && after.names[q] == fs.names[q] && ShapeAt(after, q) == ShapeAt(fs, q)
  }

  lemma StaysTwice(a: FS, b: FS, c: FS, q: Path)
    requires Stays(a, b, q) && Stays(b, c, q)
    ensures Stays(a, c, q)
  {
  }

  lemma WorkStays(fs: FS, after: FS, p: Path, q: Path)
    requires WorksOn(fs, after, p) && q != p
    ensures Stays(fs, after, q)
  {
  }

  lemma RelinkStays(fs: FS, after: FS, m: Path, q: Path)
    requires Relinked(fs, after, m) && q != m
    ensures Stays(fs, after, q)
  {
  }

  /** Attributes leave every name as it is. */
  lemma PlainStays(fs: FS, e: FileEntry, p: Path, opts: AttrOptions, q: Path)
    requires Attributes.ApplyPlain(fs, e, p, opts).Ok?
    ensures Stays(fs, Attributes.ApplyPlain(fs, e, p, opts).value, q)
    ensures Attributes.ApplyPlain(fs, e, p, opts).value.names == fs.names
  {
    hide Attributes.WithOwnership, Attributes.WithTimes, Attributes.WithPerms;
  }

  lemma MkdirStays(proc: Process, fs: FS, d: Path, q: Path)
    requires Valid(fs) && MkdirAll(proc, fs, d).Ok?
    ensures Stays(fs, MkdirAll(proc, fs, d).value, q) && Valid(MkdirAll(proc, fs, d).value)
  {
    hide Valid, MkdirAll;
    MkdirAllWorks(proc, fs, d, d);
    if q == d && d in fs.names {
      MkdirKeepsDir(proc, fs, d);
    }
  }

  lemma MkdirKeepsDir(proc: Process, fs: FS, d: Path)
    requires Valid(fs) && MkdirAll(proc, fs, d).Ok? && d in fs.names
    ensures MkdirAll(proc, fs, d).value == fs
  {
  }

  lemma DropStays(cfg: Config, e: FileEntry, plan: Plan, fs: FS, q: Path)
    requires Valid(fs) && (cfg.ropts.partialDir.Some? ==> q != Spot(cfg, e))
    ensures Stays(fs, DropPartial(cfg, e, plan, fs), q)
  {
    hide Valid, WorksOn, PartialPath;
    if plan.usedPartial && cfg.ropts.partialDir.Some? {
      var spot := Spot(cfg, e);
      if Remove(cfg.proc, fs, spot).Ok? {
        RemoveWorks(cfg.proc, fs, spot);
        WorkStays(fs, Remove(cfg.proc, fs, spot).value, spot, q);
      }
    }
  }

  // ---- One entry ----

  lemma CommitStays(cfg: Config, e: FileEntry, plan: Plan, data: Bytes, fs: FS, q: Path)
    requires Valid(fs) && e.kind == Regular && Commit(cfg, e, plan, data, fs).Ok?
    requires q != At(cfg, e) && (cfg.ropts.partialDir.Some? ==> q != Spot(cfg, e))
    ensures Stays(fs, Commit(cfg, e, plan, data, fs).value, q)
  {
    hide Valid, WorksOn, MkdirAll, Install, DropPartial, Attributes.ApplyPlain, Stays, Parent, PartialPath, MustWrite;
    var p := At(cfg, e);
    var made := MkdirAll(cfg.proc, fs, Parent(p)).value;
    MkdirStays(cfg.proc, fs, Parent(p), q);
    var written := WriteContent(cfg, e, plan, data, made).value;
    if MustWrite(plan, data) {
      var installed := Install(cfg.proc, made, p, data).value;
      InstallWorks(cfg.proc, made, p, data);
      WorkStays(made, installed, p, q);
      DropStays(cfg, e, plan, installed, q);
      StaysTwice(fs, made, installed, q);
      StaysTwice(fs, installed, written, q);
    }
    PlainStays(written, e, p, cfg.attrs, q);
    StaysTwice(fs, written, Attributes.ApplyPlain(written, e, p, cfg.attrs).value, q);
  }

  lemma LocalStays(cfg: Config, e: FileEntry, st: State, q: Path)
    requires Valid(st.fs) && ReceiveLocal(cfg, e, st).Ok? && (e.kind == Symlinked ==> q != At(cfg, e))
    ensures Stays(st.fs, ReceiveLocal(cfg, e, st).value.fs, q)
  {
    hide Valid, WorksOn, MkdirAll, Attributes.ApplyAttributes, Stays, Parent;
    var p := At(cfg, e);
    assert Stays(st.fs, st.fs, q) by {
      StaysHere(st.fs, q);
    }
    if !cfg.ropts.dryRun && e.kind == Directory {
      MkdirStays(cfg.proc, st.fs, p, q);
    }
    if !cfg.ropts.dryRun && e.kind == Symlinked && cfg.attrs.links {
      var made := MkdirAll(cfg.proc, st.fs, Parent(p)).value;
      MkdirStays(cfg.proc, st.fs, Parent(p), q);
      var placed := Attributes.ApplyAttributes(cfg.proc, made, e, p, cfg.attrs).value;
      Attributes.ApplyAttributesLinkWorks(cfg.proc, made, e, p, cfg.attrs);
      WorkStays(made, placed, p, q);
      StaysTwice(st.fs, made, placed, q);
    }
  }

  lemma StaysHere(fs: FS, q: Path)
    ensures Stays(fs, fs, q)
  {
  }

  /** No entry's handling replaces or removes q: it is neither a transferred file's or symlink's path nor a partial file's. */
  ghost predicate Untouchable(job: Job, q: Path) {
    forall k :: 0 <= k < |job.list.entries| ==>
      && (Transfers(job.list, Entry(job, k)) || Entry(job, k).kind == Symlinked ==> q != Where(job, k))
      && (Transfers(job.list, Entry(job, k)) && job.cfg.ropts.partialDir.Some? ==> q != Spot(job.cfg, Entry(job, k)))
  }

  lemma EntryStays(job: Job, k: nat, pr: Progress, q: Path)
    requires k < |job.list.entries| && Untouchable(job, q) && Valid(pr.st.fs) && SyncEntry(job, Entry(job, k), pr).Ok?
    ensures Stays(pr.st.fs, SyncEntry(job, Entry(job, k), pr).value.st.fs, q)
  {
    var cfg, e, fs := job.cfg, Entry(job, k), pr.st.fs;
    hide Valid, Prepare, Reply, ReadDelta, NewData, Commit, Stays, PartialPath;
    if Transfers(job.list, e) {
      if !cfg.ropts.dryRun {
        var plan := Prepare(cfg, e, fs).value;
        var msg := Reply(cfg, job.src, e, SignatureFor(e, plan)).value;
        CommitStays(cfg, e, plan, NewData(plan, ReadDelta(cfg, e, msg).value).value, fs, q);
      } else {
        StaysHere(fs, q);
      }
    } else {
      LocalStays(cfg, e, pr.st, q);
    }
  }

  lemma {:induction false} StaysSoFar(job: Job, start: FS, k: nat, q: Path)
    requires Untouchable(job, q) && Valid(start) && k <= |job.list.entries| && After(job, start, k).Ok?
    ensures Stays(start, After(job, start, k).value.st.fs, q)
  {
    hide Valid, SyncEntry, Untouchable, Stays;
    if k > 0 {
      StaysSoFar(job, start, k - 1, q);
      AfterIsValid(job, start, k - 1);
      EntryStays(job, k - 1, After(job, start, k - 1).value, q);
      StaysTwice(start, After(job, start, k - 1).value.st.fs, After(job, start, k).value.st.fs, q);
    } else {
      StaysHere(start, q);
    }
  }

  // ---- While a file is put in place ----

  lemma OpenStays(proc: Process, fs: FS, p: Path, tmp: Path, q: Path)
    requires Valid(fs) && OpenTemp(proc, fs, p, tmp).Ok? && q in fs.names
    ensures Stays(fs, OpenTemp(proc, fs, p, tmp).value, q) && q != tmp
  {
    hide Valid, Create;
    CreateFacts(proc, fs, tmp, File(Fresh(proc, fs, FILE_MODE), []));
  }

  lemma FillStays(base: FS, fs: FS, tmp: Path, bytes: Bytes, q: Path)
    requires Beside(base, fs, tmp) && q != tmp
    ensures Stays(fs, Fill(fs, tmp, bytes), q) && Fill(fs, tmp, bytes).names == fs.names
  {
    assert !Shares(fs, q, tmp);
    hide Valid;
  }

  lemma UnnameStays(proc: Process, fs: FS, tmp: Path, q: Path)
    requires Valid(fs) && q != tmp
    ensures Stays(fs, RemoveQuietly(proc, fs, tmp), q)
  {
    hide Valid, WorksOn;
    if Remove(proc, fs, tmp).Ok? {
      RemoveWorks(proc, fs, tmp);
      WorkStays(fs, Remove(proc, fs, tmp).value, tmp, q);
    }
  }

  lemma BumpStays(proc: Process, fs: FS, d: Path, q: Path)
    ensures Stays(fs, Bump(proc, fs, d), q)
  {
  }

  lemma RenameStays(proc: Process, fs: FS, tmp: Path, p: Path, q: Path)
    requires RenameOnto(proc, fs, tmp, p).Ok? && q != tmp && q != p
    ensures Stays(fs, RenameOnto(proc, fs, tmp, p).value, q)
  {
    var moved := fs.(names := (fs.names - {tmp})[p := fs.names[tmp]]);
    assert Stays(fs, moved, q);
    hide Stays, Bump;
    BumpStays(proc, moved, Parent(p), q);
    StaysTwice(fs, moved, Bump(proc, moved, Parent(p)), q);
    BumpStays(proc, Bump(proc, moved, Parent(p)), Parent(tmp), q);
    StaysTwice(fs, Bump(proc, moved, Parent(p)), Bump(proc, Bump(proc, moved, Parent(p)), Parent(tmp)), q);
  }

  lemma AbandonStays(cfg: Config, e: FileEntry, base: FS, fs: FS, tmp: Path, renames: bool, q: Path)
    requires Beside(base, fs, tmp) && q != tmp && q != KeepAt(cfg, e)
    ensures Stays(fs, AbandonOrKeep(cfg, e, fs, tmp, renames), q)
  {
    assert Valid(fs);
    hide Beside, Valid, MkdirAll, RenameOnto, Stays, PartialPath, RemoveQuietly;
    UnnameStays(cfg.proc, fs, tmp, q);
    if cfg.ropts.KeepPartial() {
      var target := KeepAt(cfg, e);
      var made := if cfg.ropts.partialDir.None? then Ok(fs) else MkdirAll(cfg.proc, fs, Parent(target));
      if made.Ok? {
        StaysHere(fs, q);
        if cfg.ropts.partialDir.Some? {
          MkdirStays(cfg.proc, fs, Parent(target), q);
        }
        UnnameStays(cfg.proc, made.value, tmp, q);
        StaysTwice(fs, made.value, RemoveQuietly(cfg.proc, made.value, tmp), q);
        if RenameOnto(cfg.proc, made.value, tmp, target).Ok? {
          RenameStays(cfg.proc, made.value, tmp, target, q);
          StaysTwice(fs, made.value, RenameOnto(cfg.proc, made.value, tmp, target).value, q);
        }
      }
    }
  }

  /** A list as Walk sends it, a tree, a run that writes, and partial files out of the way. */
  ghost predicate Orderly(setup: Setup) {
    WellFormed(setup.job.list) && Valid(setup.start) && !setup.job.cfg.ropts.dryRun && Apart(setup.job)
  }

  lemma OrderlyIs(setup: Setup)
    requires Orderly(setup)
    ensures WellFormed(setup.job.list) && Valid(setup.start) && !setup.job.cfg.ropts.dryRun && Apart(setup.job)
  {
  }

  lemma InHandElsewhere(setup: Setup, m: Machine, q: Path)
    requires m.r.Placing? && OnCourse(setup, m.r) && Untouchable(setup.job, q)
    ensures m.r.k < N(setup) && q != Where(setup.job, m.r.k) && q != KeepAt(setup.job.cfg, Entry(setup.job, m.r.k))
    ensures setup.job.cfg.ropts.partialDir.Some? ==> q != Spot(setup.job.cfg, Entry(setup.job, m.r.k))
  {
    TransferInHand(setup, m);
    hide OnCourse, Transfers, PartialPath;
  }

  lemma PlacingStays(setup: Setup, m: Machine, q: Path)
    requires Valid(setup.start) && m.r.Placing? && OnCourse(setup, m.r) && Untouchable(setup.job, q) && q in setup.start.names
    ensures Stays(setup.start, m.r.fs, q) && (m.r.phase.Filling? ==> q != m.r.phase.tmp)
  {
    InHandElsewhere(setup, m, q);
    PlacingIsReached(setup, m);
    hide Valid, Untouchable, Stays, Understood, MkdirAll, OpenTemp, Fill, Install, After, MustWrite, WorksOn;
    StaysSoFar(setup.job, setup.start, m.r.k, q);
    assert Stays(setup.start, m.r.st.fs, q);
    if !m.r.phase.Making? {
      var made := PlacingBase(setup, m);
      var proc, p := setup.job.cfg.proc, Where(setup.job, m.r.k);
      AfterIsValid(setup.job, setup.start, m.r.k);
      MkdirStays(proc, m.r.st.fs, Parent(p), q);
      StaysTwice(setup.start, m.r.st.fs, made, q);
      match m.r.phase
      case Making =>
      case Opening =>
      case Filling(tmp, n) =>
        StillNamed(setup.start, made, q);
        OpenStays(proc, made, p, tmp, q);
        var begun := OpenTemp(proc, made, p, tmp).value;
        OpenedBeside(proc, made, p, tmp);
        FillStays(made, begun, tmp, m.r.data[..n], q);
        StaysTwice(setup.start, made, begun, q);
        StaysTwice(setup.start, begun, m.r.fs, q);
      case Written =>
        WrittenIs(setup, m, made);
        if MustWrite(m.r.plan, m.r.data) {
          InstallWorks(proc, made, p, m.r.data);
          WorkStays(made, m.r.fs, p, q);
          StaysTwice(setup.start, made, m.r.fs, q);
        }
    }
  }

  lemma StillNamed(fs: FS, after: FS, q: Path)
    requires Stays(fs, after, q) && q in fs.names
    ensures q in after.names
  {
  }

  // ---- The link pass ----

  lemma MemberStays(cfg: Config, first: Path, member: Path, fs: FS, q: Path)
    requires Valid(fs) && member != [] && first != member && LinkMember(cfg, first, member, fs).Ok? && q != cfg.dest + member
    ensures Stays(fs, LinkMember(cfg, first, member, fs).value, q) && Valid(LinkMember(cfg, first, member, fs).value)
  {
    hide Valid, Relinked, LinkMember;
    LinkMemberEffect(cfg, first, member, fs);
    RelinkStays(fs, LinkMember(cfg, first, member, fs).value, cfg.dest + member, q);
  }

  lemma {:induction false} GroupStays(job: Job, fs: FS, g: nat, k: nat, q: Path)
    requires WellFormed(job.list) && g < |job.list.groups| && k <= |job.list.groups[g]| && Valid(fs)
    requires LinkGroup(job.cfg, job.list.groups[g], k, fs).Ok?
    requires forall n :: 1 <= n < k ==> q != job.cfg.dest + job.list.groups[g][n]
    ensures Stays(fs, LinkGroup(job.cfg, job.list.groups[g], k, fs).value, q) && Valid(LinkGroup(job.cfg, job.list.groups[g], k, fs).value)
  {
    hide Valid, WellFormed, LinkMember, Stays;
    if k > 1 {
      GroupStays(job, fs, g, k - 1, q);
      MembersDiffer(job, g, 0, g, k - 1);
      MemberIsSecondary(job.list, g, k - 1);
      var before := LinkGroup(job.cfg, job.list.groups[g], k - 1, fs).value;
      MemberStays(job.cfg, job.list.groups[g][0], job.list.groups[g][k - 1], before, q);
      StaysTwice(fs, before, LinkGroup(job.cfg, job.list.groups[g], k, fs).value, q);
    } else {
      StaysHere(fs, q);
    }
  }

  /** Member n of group g comes after everything relinked so far. */
  ghost predicate Ahead(job: Job, g: nat, n: nat, h: nat, k: nat) {
    h < g || (h == g && k <= n)
  }

  lemma OthersFirst(job: Job, g: nat, n: nat, h: nat, k: nat)
    requires WellFormed(job.list) && g < |job.list.groups| && n < |job.list.groups[g]| && h < |job.list.groups| && k < |job.list.groups[h]| && (g != h || n != k)
    ensures job.cfg.dest + job.list.groups[h][k] != job.cfg.dest + job.list.groups[g][n]
  {
    MembersDiffer(job, h, k, g, n);
  }

  lemma {:induction false} PassStays(job: Job, fs: FS, h: nat, g: nat, n: nat)
    requires WellFormed(job.list) && h <= g < |job.list.groups| && n < |job.list.groups[g]| && Valid(fs)
    requires LinkPass(job.cfg, job.list.groups, h, fs).Ok?
    ensures Stays(fs, LinkPass(job.cfg, job.list.groups, h, fs).value, job.cfg.dest + job.list.groups[g][n])
    ensures Valid(LinkPass(job.cfg, job.list.groups, h, fs).value)
  {
    hide Valid, WellFormed, LinkGroup, Stays;
    var q := job.cfg.dest + job.list.groups[g][n];
    if h > 0 {
      PassStays(job, fs, h - 1, g, n);
      var before := LinkPass(job.cfg, job.list.groups, h - 1, fs).value;
      var prior := job.list.groups[h - 1];
      forall k | 1 <= k < |prior| ensures q != job.cfg.dest + prior[k] {
        OthersFirst(job, g, n, h - 1, k);
      }
      GroupStays(job, before, h - 1, |job.list.groups[h - 1]|, q);
      StaysTwice(fs, before, LinkPass(job.cfg, job.list.groups, h, fs).value, q);
    } else {
      StaysHere(fs, q);
    }
  }

  /** Up to its own turn a member's path is left alone. */
  lemma HereStays(setup: Setup, before: FS, h: nat, k: nat, g: nat, n: nat)
    requires WellFormed(setup.job.list) && Valid(before) && h <= |setup.job.list.groups| && LinkedSoFar(setup, before, h, k).Ok?
    requires g < |setup.job.list.groups| && 1 <= n < |setup.job.list.groups[g]| && Ahead(setup.job, g, n, h, k)
    ensures Stays(before, LinkedSoFar(setup, before, h, k).value, setup.job.cfg.dest + setup.job.list.groups[g][n])
    ensures Valid(LinkedSoFar(setup, before, h, k).value)
  {
    hide Valid, WellFormed, LinkGroup, LinkPass, Stays;
    var job := setup.job;
    var q := job.cfg.dest + job.list.groups[g][n];
    PassStays(job, before, h, g, n);
    var base := LinkPass(job.cfg, job.list.groups, h, before).value;
    var upTo := if k <= GroupLength(setup, h) then k else GroupLength(setup, h);
    forall j | 1 <= j < upTo ensures q != job.cfg.dest + job.list.groups[h][j] {
      OthersFirst(job, g, n, h, j);
    }
    GroupStays(job, base, h, upTo, q);
    StaysTwice(before, base, LinkedSoFar(setup, before, h, k).value, q);
  }

  /** From its own turn on a member shares its group's first inode. */
  lemma HereShares(setup: Setup, before: FS, h: nat, k: nat)
    requires WellFormed(setup.job.list) && Valid(before) && h <= |setup.job.list.groups| && 1 <= k && LinkedSoFar(setup, before, h, k).Ok?
    ensures Valid(LinkedSoFar(setup, before, h, k).value)
    ensures LinkedUpTo(setup.job, LinkedSoFar(setup, before, h, k).value, h, if k <= GroupLength(setup, h) then k else GroupLength(setup, h))
  {
    hide Valid, WellFormed, LinkGroup, LinkPass, Keeps, LinkedUpTo;
    var job := setup.job;
    LinkPassHolds(job, before, h);
    var base := LinkPass(job.cfg, job.list.groups, h, before).value;
    if h < |job.list.groups| {
      GroupsHaveTwo(job.list, h);
      LinkGroupHolds(job, before, base, h, if k <= GroupLength(setup, h) then k else GroupLength(setup, h));
    } else {
      WiderLinked(job, base, h, k);
    }
    KeepsIsValid(job, before, LinkedSoFar(setup, before, h, k).value);
  }

  lemma WiderLinked(job: Job, fs: FS, h: nat, k: nat)
    requires LinkedUpTo(job, fs, h, 1) && h >= |job.list.groups|
    ensures LinkedUpTo(job, fs, h, k) && LinkedUpTo(job, fs, h, 1)
  {
  }
}
