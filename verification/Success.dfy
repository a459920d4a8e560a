/** When a run succeeds, exactly, told by the list, the destination at the start and the source alone. */
module Success {
  import opened Prelude
  import opened FileSystem
  import opened Entries
  import opened Attributes
  import opened Delta
  import opened Receiver
  import opened SyncRun
  import opened Effects
  import opened Runs
  import opened FinalPasses
  import opened Contents
  import opened PartialDirs
  import opened Directories
  import opened Welcome
  import DryRun
  import EndToEnd
  import Itemize
  import PartialMisses
  import SecondRun
  import Wire

  // ---- One step at a path, seen from elsewhere ----

  /** Work at p: p is there afterwards with directories above it, and only p, `gone` and what is above p may differ. */
  ghost predicate StepAt(fs: FS, after: FS, p: Path, gone: Option<Path>) {
    && Valid(fs) && Valid(after)
    && (after == fs || (p != [] && p in after.names && Makeable(fs, Parent(p))))
    && (forall q :: q != p && !(q < p) && gone != Some(q) ==> ShapeAt(after, q) == ShapeAt(fs, q))
  }

  predicate ClearOf(gone: Option<Path>, d: Path) {
    gone.Some? ==> !(gone.value <= d)
  }

  lemma SameShapeSameName(fs: FS, after: FS, q: Path)
    requires Valid(fs) && Valid(after) && ShapeAt(after, q) == ShapeAt(fs, q)
    ensures q in after.names <==> q in fs.names
    ensures IsDir(after, q) == IsDir(fs, q) && IsFile(after, q) == IsFile(fs, q) && LinkAt(after, q) == LinkAt(fs, q)
    ensures ContentAt(after, q) == ContentAt(fs, q) && Lookup(after, q).Some? == Lookup(fs, q).Some?
  {
    NamedIsFound(fs, q);
    NamedIsFound(after, q);
    hide Valid;
  }

  predicate Blocks(fs: FS, a: Path) {
    a in fs.names && !IsDir(fs, a)
  }

  lemma StepBlocks(fs: FS, after: FS, p: Path, gone: Option<Path>, a: Path)
    requires StepAt(fs, after, p, gone) && gone != Some(a) && (a == p ==> (p in fs.names ==> IsDir(fs, p)) && IsDir(after, p))
    ensures Blocks(after, a) <==> Blocks(fs, a)
  {
    if after != fs && a < p {
      PrefixStep(a, p);
      if a in after.names {
        assert IsDir(after, a) by {
          AboveIsDir(after, p, a);
        }
      }
      hide Valid;
    } else if a != p && after != fs {
      SameShapeSameName(fs, after, a);
    }
  }

  /** A directory that can be made stays so, and one that cannot does too, when no step puts anything else in its way. */
  lemma StepMakeable(fs: FS, after: FS, p: Path, gone: Option<Path>, d: Path)
    requires StepAt(fs, after, p, gone) && ClearOf(gone, d) && (p <= d ==> (p in fs.names ==> IsDir(fs, p)) && IsDir(after, p))
    ensures Makeable(after, d) <==> Makeable(fs, d)
  {
    hide StepAt;
    if Makeable(fs, d) {
      forall a | a <= d && a in after.names ensures IsDir(after, a) {
        StepBlocks(fs, after, p, gone, a);
      }
    }
    if Makeable(after, d) {
      forall a | a <= d && a in fs.names ensures IsDir(fs, a) {
        StepBlocks(fs, after, p, gone, a);
      }
    }
  }

  lemma ChildIsBelow(c: Path, q: Path)
    requires c != [] && Parent(c) == q
    ensures q < c
  {
  }

  /** What is in a directory stays, when the step is neither below it nor takes anything from it. */
  lemma StepChildren(fs: FS, after: FS, p: Path, gone: Option<Path>, q: Path)
    requires StepAt(fs, after, p, gone) && !(q < p) && (gone.Some? ==> !(q <= gone.value))
    ensures HasChild(after, q) <==> HasChild(fs, q)
  {
    forall c | c != [] && Parent(c) == q ensures c in after.names <==> c in fs.names {
      ChildIsBelow(c, q);
      assert c != p && !(c < p) && gone != Some(c);
      SameShapeSameName(fs, after, c);
    }
  }

  // ---- The places of a list ----

  /** No partial file lies at or above a listed path, or below one that is no directory. */
  ghost predicate Aloof(job: Job) {
    job.cfg.ropts.partialDir.Some? ==>
      forall i, j :: 0 <= i < |job.list.entries| && Transfers(job.list, Entry(job, i)) && 0 <= j < |job.list.entries| ==>
        !(Spot(job.cfg, Entry(job, i)) <= Where(job, j)) && (Entry(job, j).kind != Directory ==> !(Where(job, j) <= Spot(job.cfg, Entry(job, i))))
  }

  lemma AloofIsApart(job: Job)
    requires Aloof(job)
    ensures Apart(job)
  {
    if job.cfg.ropts.partialDir.Some? {
      forall i, j | 0 <= i < |job.list.entries| && Transfers(job.list, Entry(job, i)) && 0 <= j < |job.list.entries|
        ensures Spot(job.cfg, Entry(job, i)) != Where(job, j)
      {
        assert !(Spot(job.cfg, Entry(job, i)) <= Where(job, j));
      }
    }
  }

  /** The partial file entry k may take away. */
  function GoneWith(job: Job, k: nat): Option<Path>
    requires k < |job.list.entries|
  {
    if job.cfg.ropts.partialDir.Some? && Transfers(job.list, Entry(job, k)) then Some(Spot(job.cfg, Entry(job, k))) else None
  }

  lemma GoneIsClear(job: Job, k: nat, i: nat)
    requires Aloof(job) && k < |job.list.entries| && i < |job.list.entries|
    ensures ClearOf(GoneWith(job, k), Where(job, i))
    ensures GoneWith(job, k).Some? && Entry(job, i).kind != Directory ==> !(Where(job, i) <= GoneWith(job, k).value)
  {
  }

  lemma ClearAbove(gone: Option<Path>, p: Path)
    requires ClearOf(gone, p) && p != []
    ensures ClearOf(gone, Parent(p))
  {
    assert Parent(p) <= p;
  }

  // ---- An entry as such a step ----

  /** A successful entry is a step at its path. */
  lemma EntryIsStep(job: Job, k: nat, pr: Progress)
    requires WellFormed(job.list) && Aloof(job) && !job.cfg.ropts.dryRun && k < |job.list.entries| && Valid(pr.st.fs) && SyncEntry(job, Entry(job, k), pr).Ok?
    requires Wire.Inverts(job.cfg.codec) && (Transfers(job.list, Entry(job, k)) ==> NoCollisionOn(job, Entry(job, k), pr.st.fs))
    ensures StepAt(pr.st.fs, SyncEntry(job, Entry(job, k), pr).value.st.fs, Where(job, k), GoneWith(job, k))
    ensures Entry(job, k).kind == Directory ==>
      (Where(job, k) in pr.st.fs.names ==> IsDir(pr.st.fs, Where(job, k))) && IsDir(SyncEntry(job, Entry(job, k), pr).value.st.fs, Where(job, k))
    ensures Transfers(job.list, Entry(job, k)) ==>
      Where(job, k) in SyncEntry(job, Entry(job, k), pr).value.st.fs.names
      && (IsDir(SyncEntry(job, Entry(job, k), pr).value.st.fs, Where(job, k)) <==> IsDir(pr.st.fs, Where(job, k)))
    ensures Entry(job, k).kind == Regular && !Transfers(job.list, Entry(job, k)) ==> SyncEntry(job, Entry(job, k), pr).value.st.fs == pr.st.fs
  {
    var e, p, fs, after := Entry(job, k), Where(job, k), pr.st.fs, SyncEntry(job, Entry(job, k), pr).value.st.fs;
    PathsAreNamed(job, k);
    EntryKeepsTree(job, e, pr);
    SpotIsElsewhere(job, k);
    hide WellFormed, Valid, Aloof, NoCollisionOn, SyncEntry, Transfers, FileWelcome, LinkWelcome, PartialPath;
    EntryIff(job, e, pr);
    EntryIsThere(job, e, pr);
    forall q | q != p && !(q < p) && GoneWith(job, k) != Some(q) ensures ShapeAt(after, q) == ShapeAt(fs, q) {
      StepSpares(job, e, pr, q);
    }
    if after != fs {
      WelcomeIsReachable(job, e, fs);
    }
  }

  lemma PathsAreNamed(job: Job, k: nat)
    requires WellFormed(job.list) && k < |job.list.entries|
    ensures Entry(job, k).path != [] && Where(job, k) != [] && At(job.cfg, Entry(job, k)) == Where(job, k)
  {
  }

  lemma SpotIsElsewhere(job: Job, k: nat)
    requires Aloof(job) && k < |job.list.entries|
    ensures job.cfg.ropts.partialDir.Some? && Transfers(job.list, Entry(job, k)) ==> Spot(job.cfg, Entry(job, k)) != Where(job, k)
  {
    if job.cfg.ropts.partialDir.Some? && Transfers(job.list, Entry(job, k)) {
      assert !(Spot(job.cfg, Entry(job, k)) <= Where(job, k));
    }
  }

  lemma EntryKeepsTree(job: Job, e: FileEntry, pr: Progress)
    requires Valid(pr.st.fs) && SyncEntry(job, e, pr).Ok?
    ensures Valid(SyncEntry(job, e, pr).value.st.fs)
  {
    hide Valid, Prepare, Reply, ReadDelta, NewData, Commit, ReceiveLocal;
    if !Transfers(job.list, e) {
      LocalValid(job.cfg, e, pr.st);
    } else if !job.cfg.ropts.dryRun {
      var plan := Prepare(job.cfg, e, pr.st.fs).value;
      var msg := Reply(job.cfg, job.src, e, SignatureFor(e, plan)).value;
      CommitValid(job.cfg, e, plan, NewData(plan, ReadDelta(job.cfg, e, msg).value).value, pr.st.fs);
    }
  }

  lemma EntryIsThere(job: Job, e: FileEntry, pr: Progress)
    requires Valid(pr.st.fs) && !job.cfg.ropts.dryRun && At(job.cfg, e) != [] && SyncEntry(job, e, pr).Ok?
    requires Wire.Inverts(job.cfg.codec) && (Transfers(job.list, e) ==> NoCollisionOn(job, e, pr.st.fs))
    requires job.cfg.ropts.partialDir.Some? && Transfers(job.list, e) ==> Spot(job.cfg, e) != At(job.cfg, e)
    ensures var fs, after := pr.st.fs, SyncEntry(job, e, pr).value.st.fs;
      && (after == fs || At(job.cfg, e) in after.names)
      && (e.kind == Directory ==> (At(job.cfg, e) in fs.names ==> IsDir(fs, At(job.cfg, e))) && IsDir(after, At(job.cfg, e)))
      && (e.kind == Regular && !Transfers(job.list, e) ==> after == fs)
      && (e.kind == Symlinked && !job.cfg.attrs.links ==> after == fs)
      && (Transfers(job.list, e) ==> At(job.cfg, e) in after.names && (IsDir(after, At(job.cfg, e)) <==> IsDir(fs, At(job.cfg, e))))
  {
    hide Valid, NoCollisionOn, PartialPath, FileWelcome, WorksOn;
    if Transfers(job.list, e) {
      FileIff(job, e, pr);
      hide SyncEntry, Transfers;
    } else if e.kind == Directory {
      MkdirAllWorks(job.cfg.proc, pr.st.fs, At(job.cfg, e), At(job.cfg, e));
      hide MkdirAll, Lstat, Itemize.ItemizeDir;
    } else if e.kind == Symlinked && job.cfg.attrs.links {
      LinkIsThere(job.cfg, e, pr.st);
      hide ReceiveSymlink;
    }
  }

  lemma LinkIsThere(cfg: Config, e: FileEntry, st: State)
    requires Valid(st.fs) && !cfg.ropts.dryRun && cfg.attrs.links && e.kind == Symlinked && ReceiveSymlink(cfg, e, st).Ok?
    ensures At(cfg, e) in ReceiveSymlink(cfg, e, st).value.fs.names
  {
    var p := At(cfg, e);
    hide Valid, WorksOn, MkdirAll, ApplyAttributes, Lstat, Itemize.ItemizeSymlink, Parent;
    var made := MkdirAll(cfg.proc, st.fs, Parent(p)).value;
    MkdirAllWorks(cfg.proc, st.fs, Parent(p), Parent(p));
    ApplyAttributesLinkWorks(cfg.proc, made, e, p, cfg.attrs);
  }

  /** A welcome entry that does anything has only directories above it. */
  lemma WelcomeIsReachable(job: Job, e: FileEntry, fs: FS)
    requires Valid(fs) && At(job.cfg, e) != [] && EntryWelcome(job, e, fs) && !job.cfg.ropts.dryRun
    requires e.kind == Symlinked ==> job.cfg.attrs.links
    requires e.kind == Regular ==> Transfers(job.list, e)
    ensures Makeable(fs, Parent(At(job.cfg, e)))
  {
    MakeableAbove(fs, At(job.cfg, e));
    hide Makeable, Given, Clearable, Valid, Transfers, Held, PartialBasis;
  }

  // ---- The entries not reached yet ----

  /** What an entry's success depends on is as it was. */
  ghost predicate SameConditions(job: Job, i: nat, fs: FS, after: FS)
    requires i < |job.list.entries|
  {
    var p := Where(job, i);
    && (Makeable(after, Parent(p)) <==> Makeable(fs, Parent(p)))
    && (Entry(job, i).kind == Directory ==> (Makeable(after, p) <==> Makeable(fs, p)))
    && ShapeAt(after, p) == ShapeAt(fs, p)
    && (Entry(job, i).kind != Directory ==> (HasChild(after, p) <==> HasChild(fs, p)))
    && (Transfers(job.list, Entry(job, i)) && job.cfg.ropts.partialDir.Some? ==>
          ContentAt(after, Spot(job.cfg, Entry(job, i))) == ContentAt(fs, Spot(job.cfg, Entry(job, i))))
  }

  lemma SameConditionsTwice(job: Job, i: nat, a: FS, b: FS, c: FS)
    requires i < |job.list.entries| && SameConditions(job, i, a, b) && SameConditions(job, i, b, c)
    ensures SameConditions(job, i, a, c)
  {
    hide Makeable, PartialPath;
  }

  lemma SameWelcome(job: Job, i: nat, fs: FS, after: FS)
    requires i < |job.list.entries| && SameConditions(job, i, fs, after) && Valid(fs) && Valid(after) && !job.cfg.ropts.dryRun
    ensures EntryWelcome(job, Entry(job, i), after) <==> EntryWelcome(job, Entry(job, i), fs)
    ensures Transfers(job.list, Entry(job, i)) ==> (NoCollisionOn(job, Entry(job, i), after) <==> NoCollisionOn(job, Entry(job, i), fs))
  {
    SameShapeSameName(fs, after, Where(job, i));
    hide Makeable, PartialPath, Valid, HasChild;
  }

  /** A step elsewhere changes nothing for entry i. */
  lemma StepIsElsewhere(job: Job, i: nat, fs: FS, after: FS, p: Path, gone: Option<Path>)
    requires i < |job.list.entries| && Where(job, i) != [] && StepAt(fs, after, p, gone) && p != Where(job, i)
    requires !(Where(job, i) < p) && ClearOf(gone, Where(job, i))
    requires p < Where(job, i) ==> (p in fs.names ==> IsDir(fs, p)) && IsDir(after, p)
    requires Entry(job, i).kind != Directory && gone.Some? ==> !(Where(job, i) <= gone.value)
    requires Transfers(job.list, Entry(job, i)) && job.cfg.ropts.partialDir.Some? ==>
      ContentAt(after, Spot(job.cfg, Entry(job, i))) == ContentAt(fs, Spot(job.cfg, Entry(job, i)))
    ensures SameConditions(job, i, fs, after)
  {
    var q := Where(job, i);
    ClearAbove(gone, q);
    assert p <= q ==> p < q;
    assert Parent(q) <= q;
    hide StepAt, PartialPath, Transfers;
    StepMakeable(fs, after, p, gone, Parent(q));
    StepMakeable(fs, after, p, gone, q);
    if Entry(job, i).kind != Directory {
      StepChildren(fs, after, p, gone, q);
    }
    assert ShapeAt(after, q) == ShapeAt(fs, q) by {
      StepShape(fs, after, p, gone, q);
    }
  }

  lemma StepShape(fs: FS, after: FS, p: Path, gone: Option<Path>, q: Path)
    requires StepAt(fs, after, p, gone) && q != p && !(q < p) && gone != Some(q)
    ensures ShapeAt(after, q) == ShapeAt(fs, q)
  {
  }

  /** Two entries: the later is not above the earlier, and only a directory lies above another. */
  lemma EntriesApart(job: Job, k: nat, i: nat)
    requires WellFormed(job.list) && k < |job.list.entries| && i < |job.list.entries| && i != k
    ensures Where(job, i) != Where(job, k) && Where(job, i) != [] && Where(job, k) != []
    ensures Where(job, k) < Where(job, i) ==> Entry(job, k).kind == Directory
    ensures k < i || Entry(job, i).kind != Directory ==> !(Where(job, i) < Where(job, k))
  {
    if k < i {
      Order(job, k, i);
    } else {
      Order(job, i, k);
    }
  }

  /** Entry k's success leaves the conditions of every later entry, and of every secondary member, as they were. */
  lemma EntryKeepsConditions(job: Job, k: nat, i: nat, pr: Progress)
    requires WellFormed(job.list) && Aloof(job) && !job.cfg.ropts.dryRun && k < |job.list.entries| && i < |job.list.entries| && Valid(pr.st.fs)
    requires Wire.Inverts(job.cfg.codec) && (Transfers(job.list, Entry(job, k)) ==> NoCollisionOn(job, Entry(job, k), pr.st.fs))
    requires SyncEntry(job, Entry(job, k), pr).Ok? && (k < i || (Entry(job, i).kind == Regular && !Transfers(job.list, Entry(job, i))))
    ensures SameConditions(job, i, pr.st.fs, SyncEntry(job, Entry(job, k), pr).value.st.fs)
    ensures Valid(SyncEntry(job, Entry(job, k), pr).value.st.fs)
  {
    var fs, after := pr.st.fs, SyncEntry(job, Entry(job, k), pr).value.st.fs;
    EntryIsStep(job, k, pr);
    EntryKeepsTree(job, Entry(job, k), pr);
    if i == k {
      SameIsSame(job, i, fs);
    } else {
      EntriesApart(job, k, i);
      GoneIsClear(job, k, i);
      if Transfers(job.list, Entry(job, i)) && job.cfg.ropts.partialDir.Some? {
        SpotSpared(job, k, i, pr);
      }
      hide WellFormed, Valid, Aloof, NoCollisionOn, SyncEntry, StepAt, PartialPath, SameConditions, Transfers;
      StepIsElsewhere(job, i, fs, after, Where(job, k), GoneWith(job, k));
    }
  }

  lemma SameIsSame(job: Job, i: nat, fs: FS)
    requires i < |job.list.entries|
    ensures SameConditions(job, i, fs, fs)
  {
  }

  lemma SpotSpared(job: Job, k: nat, i: nat, pr: Progress)
    requires WellFormed(job.list) && Aloof(job) && k < |job.list.entries| && i < |job.list.entries| && i != k && Valid(pr.st.fs)
    requires Transfers(job.list, Entry(job, i)) && job.cfg.ropts.partialDir.Some? && SyncEntry(job, Entry(job, k), pr).Ok?
    ensures ContentAt(SyncEntry(job, Entry(job, k), pr).value.st.fs, Spot(job.cfg, Entry(job, i))) == ContentAt(pr.st.fs, Spot(job.cfg, Entry(job, i)))
  {
    SpotsDiffer(job, i, k);
    assert !(Spot(job.cfg, Entry(job, i)) <= Where(job, k));
    hide WellFormed, Valid, Aloof, SyncEntry, PartialPath, Transfers;
    StepSpares(job, Entry(job, k), pr, Spot(job.cfg, Entry(job, i)));
  }

  /** After any number of entries, so it is still as at the start. */
  lemma {:induction false} ConditionsSoFar(job: Job, start: FS, k: nat, i: nat)
    requires WellFormed(job.list) && Aloof(job) && !job.cfg.ropts.dryRun && Valid(start) && Collisionless(job, start)
    requires k <= |job.list.entries| && i < |job.list.entries| && After(job, start, k).Ok?
    requires k <= i || (Entry(job, i).kind == Regular && !Transfers(job.list, Entry(job, i)))
    ensures SameConditions(job, i, start, After(job, start, k).value.st.fs) && Valid(After(job, start, k).value.st.fs)
  {
    hide WellFormed, Aloof, Valid, SyncEntry, SameConditions, Transfers, NoCollisionOn;
    if k > 0 {
      ConditionsSoFar(job, start, k - 1, i);
      ConditionsSoFar(job, start, k - 1, k - 1);
      var pr := After(job, start, k - 1).value;
      SameWelcome(job, k - 1, start, pr.st.fs);
      EntryKeepsConditions(job, k - 1, i, pr);
      SameConditionsTwice(job, i, start, pr.st.fs, After(job, start, k).value.st.fs);
    } else {
      SameIsSame(job, i, start);
    }
  }

  // ---- All entries ----

  ghost predicate Welcomed(job: Job, k: nat, fs: FS)
    requires k <= |job.list.entries|
  {
    forall i :: 0 <= i < k ==> EntryWelcome(job, Entry(job, i), fs)
  }

  /** The first k entries succeed exactly when each is welcome at the start. */
  lemma {:induction false} EntriesIff(job: Job, start: FS, k: nat)
    requires WellFormed(job.list) && Aloof(job) && !job.cfg.ropts.dryRun && Valid(start) && Collisionless(job, start) && k <= |job.list.entries|
    ensures After(job, start, k).Ok? <==> Welcomed(job, k, start)
  {
    hide WellFormed, Aloof, Valid, SyncEntry, SameConditions, Transfers, NoCollisionOn, EntryWelcome;
    if k > 0 {
      EntriesIff(job, start, k - 1);
      if After(job, start, k - 1).Ok? {
        ConditionsSoFar(job, start, k - 1, k - 1);
        var pr := After(job, start, k - 1).value;
        SameWelcome(job, k - 1, start, pr.st.fs);
        PathsAreNamed(job, k - 1);
        SpotIsElsewhere(job, k - 1);
        EntryIff(job, Entry(job, k - 1), pr);
      }
    }
  }

  // ---- The dry run ----

  lemma {:induction false} DryEntriesIff(job: Job, start: FS, k: nat)
    requires WellFormed(job.list) && Aloof(job) && job.cfg.ropts.dryRun && Valid(start) && Collisionless(job, start) && k <= |job.list.entries|
    ensures After(job, start, k).Ok? <==> Welcomed(job, k, start)
  {
    hide WellFormed, Aloof, Valid, SyncEntry, Transfers, NoCollisionOn, EntryWelcome;
    if k > 0 {
      DryEntriesIff(job, start, k - 1);
      if After(job, start, k - 1).Ok? {
        DryRun.DryRunNeverWrites(job, start, k - 1);
        PathsAreNamed(job, k - 1);
        SpotIsElsewhere(job, k - 1);
        EntryIff(job, Entry(job, k - 1), After(job, start, k - 1).value);
      }
    }
  }

  // ---- The link pass ----

  /** A member can be relinked: its directory can be made, what is there can be removed, and its group's first is there and no directory. */
  ghost predicate MemberReady(cfg: Config, first: Path, member: Path, fs: FS) {
    && Makeable(fs, Parent(cfg.dest + member)) && Clearable(fs, cfg.dest + member)
    && cfg.dest + first in fs.names && !IsDir(fs, cfg.dest + first)
  }

  lemma LinkMemberIff(cfg: Config, first: Path, member: Path, fs: FS)
    requires Valid(fs) && member != [] && first != member
    ensures LinkMember(cfg, first, member, fs).Ok? <==> MemberReady(cfg, first, member, fs)
    ensures LinkMember(cfg, first, member, fs).Ok? ==>
      Valid(LinkMember(cfg, first, member, fs).value) && StepAt(fs, LinkMember(cfg, first, member, fs).value, cfg.dest + member, None)
  {
    var f, m := cfg.dest + first, cfg.dest + member;
    PrefixUnder(cfg.dest, first, member);
    MkdirAllIff(cfg.proc, fs, Parent(m));
    hide Makeable, Valid, HasChild;
    if MkdirAll(cfg.proc, fs, Parent(m)).Ok? {
      var made := MkdirAll(cfg.proc, fs, Parent(m)).value;
      ParentsMade(cfg.proc, fs, m);
      MadeSpares(cfg.proc, fs, m);
      hide MkdirAll;
      RemovedIff(cfg.proc, made, m);
      if Remove(cfg.proc, made, m).Ok? {
        var gone := Remove(cfg.proc, made, m).value;
        hide Remove;
        LinkedIff(cfg.proc, gone, f, m);
        FirstStays(fs, made, gone, f, m);
        if LinkTo(cfg.proc, gone, f, m).Ok? {
          LinkToFacts(cfg.proc, gone, f, m);
          hide LinkTo;
          assert forall q :: q != m && !(q < m) ==> ShapeAt(gone, q) == ShapeAt(fs, q);
        }
      }
    }
  }

  lemma MadeSpares(proc: Process, fs: FS, p: Path)
    requires Valid(fs) && p != [] && MkdirAll(proc, fs, Parent(p)).Ok?
    ensures forall q :: !(q < p) ==> ShapeAt(MkdirAll(proc, fs, Parent(p)).value, q) == ShapeAt(fs, q)
    ensures forall q :: q in fs.names ==> ShapeAt(MkdirAll(proc, fs, Parent(p)).value, q) == ShapeAt(fs, q)
    ensures forall q :: q in MkdirAll(proc, fs, Parent(p)).value.names && q !in fs.names ==> IsDir(MkdirAll(proc, fs, Parent(p)).value, q)
  {
    hide MkdirAll;
    assert Parent(p) < p;
    MkdirAllWorks(proc, fs, Parent(p), Parent(p));
    var made := MkdirAll(proc, fs, Parent(p)).value;
    forall q | !(q < p) ensures ShapeAt(made, q) == ShapeAt(fs, q) {
      assert !(q <= Parent(p));
      assert Lookup(made, q) == Lookup(fs, q);
    }
    forall q | q in fs.names ensures ShapeAt(made, q) == ShapeAt(fs, q) {
      if q == Parent(p) {
        StandsAlreadyAt(proc, fs, Parent(p));
      }
    }
  }

  lemma StandsAlreadyAt(proc: Process, fs: FS, d: Path)
    requires Valid(fs) && d in fs.names && MkdirAll(proc, fs, d).Ok?
    ensures MkdirAll(proc, fs, d).value == fs
  {
  }

  lemma RemovedIff(proc: Process, fs: FS, m: Path)
    requires Valid(fs) && m != [] && IsDir(fs, Parent(m))
    ensures Remove(proc, fs, m).Ok? <==> (m in fs.names ==> Clearable(fs, m))
    ensures Remove(proc, fs, m).Ok? ==>
      var gone := Remove(proc, fs, m).value;
      && Valid(gone) && m !in gone.names && IsDir(gone, Parent(m)) && gone.names == fs.names - {m}
      && forall q :: q != m ==> ShapeAt(gone, q) == ShapeAt(fs, q)
  {
    if Remove(proc, fs, m).Ok? {
      RemoveWorks(proc, fs, m);
      var gone := Remove(proc, fs, m).value;
      if m in fs.names {
        UnnameFacts(fs, m);
        var unnamed := fs.(names := fs.names - {m});
        BumpFacts(proc, unnamed, Parent(m));
        SecondRun.ParentStays(proc, fs, m);
        hide Remove;
        forall q | q != m ensures ShapeAt(gone, q) == ShapeAt(fs, q) {
          assert Lookup(unnamed, q) == Lookup(fs, q);
        }
      }
    }
  }

  lemma LinkedIff(proc: Process, fs: FS, f: Path, m: Path)
    requires m != [] && m !in fs.names && IsDir(fs, Parent(m))
    ensures LinkTo(proc, fs, f, m).Ok? <==> f in fs.names && !IsDir(fs, f)
  {
  }

  lemma FirstStays(fs: FS, made: FS, gone: FS, f: Path, m: Path)
    requires Valid(fs) && Valid(made) && Valid(gone) && f != m && gone.names == made.names - {m}
    requires forall q :: q in fs.names ==> ShapeAt(made, q) == ShapeAt(fs, q)
    requires forall q :: q in made.names && q !in fs.names ==> IsDir(made, q)
    requires forall q :: q != m ==> ShapeAt(gone, q) == ShapeAt(made, q)
    ensures f in gone.names && !IsDir(gone, f) <==> f in fs.names && !IsDir(fs, f)
  {
    SameShapeSameName(made, gone, f);
    if f in fs.names {
      SameShapeSameName(fs, made, f);
    }
  }

  ghost predicate GroupMemberReady(job: Job, fs: FS, h: nat, j: nat)
    requires h < |job.list.groups| && j < |job.list.groups[h]|
  {
    MemberReady(job.cfg, job.list.groups[h][0], job.list.groups[h][j], fs)
  }

  /** Relinking one member changes nothing for another. */
  lemma MembersApart(job: Job, fs: FS, after: FS, g: nat, n: nat, h: nat, j: nat)
    requires WellFormed(job.list) && g < |job.list.groups| && 1 <= n < |job.list.groups[g]| && h < |job.list.groups| && 1 <= j < |job.list.groups[h]| && (g != h || n != j)
    requires StepAt(fs, after, job.cfg.dest + job.list.groups[g][n], None)
    ensures GroupMemberReady(job, after, h, j) <==> GroupMemberReady(job, fs, h, j)
  {
    var p, q, f := job.cfg.dest + job.list.groups[g][n], job.cfg.dest + job.list.groups[h][j], job.cfg.dest + job.list.groups[h][0];
    assert Valid(fs) && Valid(after);
    MembersDiffer(job, g, n, h, j);
    MembersDiffer(job, g, n, h, 0);
    RegularsStandApart(job, g, n, h, j);
    RegularsStandApart(job, g, n, h, 0);
    hide WellFormed, StepAt, Valid, HasChild;
    RegularsStandApart(job, h, j, g, n);
    assert Parent(q) <= q;
    StepMakeable(fs, after, p, None, Parent(q));
    StepChildren(fs, after, p, None, q);
    StepShape(fs, after, p, None, q);
    StepShape(fs, after, p, None, f);
    SameShapeSameName(fs, after, q);
    SameShapeSameName(fs, after, f);
    hide Makeable;
  }

  /** No listed file lies above another. */
  lemma RegularsStandApart(job: Job, g: nat, n: nat, h: nat, j: nat)
    requires WellFormed(job.list) && g < |job.list.groups| && n < |job.list.groups[g]| && h < |job.list.groups| && j < |job.list.groups[h]|
    ensures !(job.cfg.dest + job.list.groups[h][j] < job.cfg.dest + job.list.groups[g][n])
    ensures !(job.cfg.dest + job.list.groups[g][n] < job.cfg.dest + job.list.groups[h][j])
  {
    var a, b := job.list.groups[g][n], job.list.groups[h][j];
    assert Listed(job.list, a) && Listed(job.list, b);
    var x :| 0 <= x < |job.list.entries| && job.list.entries[x].kind == Regular && job.list.entries[x].path == a;
    var y :| 0 <= y < |job.list.entries| && job.list.entries[y].kind == Regular && job.list.entries[y].path == b;
    hide WellFormed;
    assert Where(job, x) == job.cfg.dest + a && Where(job, y) == job.cfg.dest + b;
    if x != y {
      EntriesApart(job, x, y);
      EntriesApart(job, y, x);
    }
  }

  ghost predicate ReadyBelow(job: Job, fs: FS, g: nat, k: nat)
    requires g < |job.list.groups| && k <= |job.list.groups[g]|
  {
    forall n :: 1 <= n < k ==> GroupMemberReady(job, fs, g, n)
  }

  lemma {:induction false} GroupIff(job: Job, fs: FS, g: nat, k: nat)
    requires WellFormed(job.list) && Valid(fs) && g < |job.list.groups| && k <= |job.list.groups[g]|
    ensures LinkGroup(job.cfg, job.list.groups[g], k, fs).Ok? <==> ReadyBelow(job, fs, g, k)
    ensures LinkGroup(job.cfg, job.list.groups[g], k, fs).Ok? ==> Valid(LinkGroup(job.cfg, job.list.groups[g], k, fs).value)
    ensures LinkGroup(job.cfg, job.list.groups[g], k, fs).Ok? ==>
      forall h, j :: 0 <= h < |job.list.groups| && 1 <= j < |job.list.groups[h]| && (h != g || k <= j) ==>
        (GroupMemberReady(job, LinkGroup(job.cfg, job.list.groups[g], k, fs).value, h, j) <==> GroupMemberReady(job, fs, h, j))
  {
    hide WellFormed, Valid, LinkMember, MemberReady, StepAt, GroupMemberReady;
    if k > 1 {
      GroupIff(job, fs, g, k - 1);
      if LinkGroup(job.cfg, job.list.groups[g], k - 1, fs).Ok? {
        var before := LinkGroup(job.cfg, job.list.groups[g], k - 1, fs).value;
        MembersDiffer(job, g, 0, g, k - 1);
        MemberIsSecondary(job.list, g, k - 1);
        ReadyIs(job, before, g, k - 1);
        LinkMemberIff(job.cfg, job.list.groups[g][0], job.list.groups[g][k - 1], before);
        if LinkGroup(job.cfg, job.list.groups[g], k, fs).Ok? {
          var after := LinkGroup(job.cfg, job.list.groups[g], k, fs).value;
          forall h, j | 0 <= h < |job.list.groups| && 1 <= j < |job.list.groups[h]| && (h != g || k <= j)
            ensures GroupMemberReady(job, after, h, j) <==> GroupMemberReady(job, fs, h, j)
          {
            MembersApart(job, before, after, g, k - 1, h, j);
          }
        }
      }
    }
  }

  lemma ReadyIs(job: Job, fs: FS, h: nat, j: nat)
    requires h < |job.list.groups| && j < |job.list.groups[h]|
    ensures GroupMemberReady(job, fs, h, j) <==> MemberReady(job.cfg, job.list.groups[h][0], job.list.groups[h][j], fs)
  {
  }

  ghost predicate GroupsReady(job: Job, fs: FS, g: nat)
    requires g <= |job.list.groups|
  {
    forall h :: 0 <= h < g ==> ReadyBelow(job, fs, h, |job.list.groups[h]|)
  }

  lemma {:induction false} PassIff(job: Job, fs: FS, g: nat)
    requires WellFormed(job.list) && Valid(fs) && g <= |job.list.groups|
    ensures LinkPass(job.cfg, job.list.groups, g, fs).Ok? <==> GroupsReady(job, fs, g)
    ensures LinkPass(job.cfg, job.list.groups, g, fs).Ok? ==> Valid(LinkPass(job.cfg, job.list.groups, g, fs).value)
    ensures LinkPass(job.cfg, job.list.groups, g, fs).Ok? ==>
      forall h, j :: g <= h < |job.list.groups| && 1 <= j < |job.list.groups[h]| ==>
        (GroupMemberReady(job, LinkPass(job.cfg, job.list.groups, g, fs).value, h, j) <==> GroupMemberReady(job, fs, h, j))
  {
    hide WellFormed, Valid, LinkGroup, GroupMemberReady;
    if g > 0 {
      PassIff(job, fs, g - 1);
      if LinkPass(job.cfg, job.list.groups, g - 1, fs).Ok? {
        var before := LinkPass(job.cfg, job.list.groups, g - 1, fs).value;
        GroupIff(job, before, g - 1, |job.list.groups[g - 1]|);
        assert ReadyBelow(job, before, g - 1, |job.list.groups[g - 1]|) <==> ReadyBelow(job, fs, g - 1, |job.list.groups[g - 1]|);
      }
    }
  }

  // ---- The whole run ----

  /** What a member needs of the destination at the start. */
  ghost predicate MemberWelcome(job: Job, start: FS, h: nat, j: nat)
    requires h < |job.list.groups| && j < |job.list.groups[h]|
  {
    var m := job.cfg.dest + job.list.groups[h][j];
    Makeable(start, Parent(m)) && Clearable(start, m) && !IsDir(start, job.cfg.dest + job.list.groups[h][0])
  }

  /** Every entry is welcome at the start and, in a run that writes, every secondary hard-link member. */
  ghost predicate Welcoming(job: Job, start: FS) {
    && Welcomed(job, |job.list.entries|, start)
    && (!job.cfg.ropts.dryRun ==>
          forall h, j :: 0 <= h < |job.list.groups| && 1 <= j < |job.list.groups[h]| ==> MemberWelcome(job, start, h, j))
  }

  lemma NextIsStep(job: Job, start: FS, k: nat)
    requires WellFormed(job.list) && Aloof(job) && !job.cfg.ropts.dryRun && Valid(start) && Collisionless(job, start)
    requires k < |job.list.entries| && After(job, start, k + 1).Ok?
    ensures After(job, start, k).Ok? && SyncEntry(job, Entry(job, k), After(job, start, k).value) == After(job, start, k + 1)
    ensures Valid(After(job, start, k).value.st.fs) && Valid(After(job, start, k + 1).value.st.fs)
    ensures Transfers(job.list, Entry(job, k)) ==> NoCollisionOn(job, Entry(job, k), After(job, start, k).value.st.fs)
    ensures ShapeAt(After(job, start, k).value.st.fs, Where(job, k)) == ShapeAt(start, Where(job, k))
  {
    hide WellFormed, Aloof, Valid, SyncEntry, Transfers, NoCollisionOn;
    ConditionsSoFar(job, start, k, k);
    SameWelcome(job, k, start, After(job, start, k).value.st.fs);
    AfterIsValid(job, start, k + 1);
  }

  /** A transferred path is there from its turn on, a directory only if it was one. */
  lemma {:induction false} TransferredSoFar(job: Job, start: FS, k: nat, i: nat)
    requires WellFormed(job.list) && Aloof(job) && !job.cfg.ropts.dryRun && Valid(start) && Collisionless(job, start)
    requires i < k <= |job.list.entries| && After(job, start, k).Ok? && Transfers(job.list, Entry(job, i))
    ensures Where(job, i) in After(job, start, k).value.st.fs.names
    ensures IsDir(After(job, start, k).value.st.fs, Where(job, i)) <==> IsDir(start, Where(job, i))
  {
    hide WellFormed, Aloof, Valid, SyncEntry, NoCollisionOn, StepAt, Collisionless;
    assert Wire.Inverts(job.cfg.codec) by {
      InvertsHere(job, start);
    }
    NextIsStep(job, start, k - 1);
    var before, after := After(job, start, k - 1).value.st.fs, After(job, start, k).value.st.fs;
    EntryIsStep(job, k - 1, After(job, start, k - 1).value);
    if i == k - 1 {
      SameShapeSameName(start, before, Where(job, i));
    } else {
      TransferredSoFar(job, start, k - 1, i);
      EntriesApart(job, k - 1, i);
      GoneIsClear(job, k - 1, i);
      StepShape(before, after, Where(job, k - 1), GoneWith(job, k - 1), Where(job, i));
      SameShapeSameName(before, after, Where(job, i));
    }
  }

  lemma InvertsHere(job: Job, fs: FS)
    requires Collisionless(job, fs)
    ensures Wire.Inverts(job.cfg.codec)
  {
  }

  /** A listed directory is one from its turn on. */
  lemma {:induction false} DirectorySoFar(job: Job, start: FS, k: nat, i: nat)
    requires WellFormed(job.list) && Aloof(job) && !job.cfg.ropts.dryRun && Valid(start) && Collisionless(job, start)
    requires i < k <= |job.list.entries| && After(job, start, k).Ok? && Entry(job, i).kind == Directory
    ensures IsDir(After(job, start, k).value.st.fs, Where(job, i))
  {
    hide WellFormed, Aloof, Valid, SyncEntry, NoCollisionOn, StepAt, Collisionless;
    InvertsHere(job, start);
    NextIsStep(job, start, k - 1);
    var before, after := After(job, start, k - 1).value.st.fs, After(job, start, k).value.st.fs;
    EntryIsStep(job, k - 1, After(job, start, k - 1).value);
    if i < k - 1 {
      DirectorySoFar(job, start, k - 1, i);
      EntriesApart(job, k - 1, i);
      GoneIsClear(job, k - 1, i);
      StepKeepsDir(before, after, Where(job, k - 1), GoneWith(job, k - 1), Where(job, i));
    }
  }

  lemma StepKeepsDir(fs: FS, after: FS, p: Path, gone: Option<Path>, q: Path)
    requires StepAt(fs, after, p, gone) && q != p && ClearOf(gone, q) && IsDir(fs, q)
    ensures IsDir(after, q)
  {
    if q < p && after != fs {
      AboveIsDir(after, p, q);
    } else if after != fs {
      SameShapeSameName(fs, after, q);
    }
  }

  /** After the entries a member can be relinked exactly if it was welcome at the start. */
  lemma MemberIff(job: Job, start: FS, h: nat, j: nat)
    requires WellFormed(job.list) && Aloof(job) && !job.cfg.ropts.dryRun && Valid(start) && Collisionless(job, start)
    requires After(job, start, |job.list.entries|).Ok? && h < |job.list.groups| && 1 <= j < |job.list.groups[h]|
    ensures GroupMemberReady(job, After(job, start, |job.list.entries|).value.st.fs, h, j) <==> MemberWelcome(job, start, h, j)
  {
    var n, mid := |job.list.entries|, After(job, start, |job.list.entries|).value.st.fs;
    MemberIsSecondary(job.list, h, j);
    var i := EndToEnd.ListedIndex(job, job.list.groups[h][j]);
    FirstTransfers(job.list, h);
    assert Listed(job.list, job.list.groups[h][0]);
    var l :| 0 <= l < n && job.list.entries[l].kind == Regular && job.list.entries[l].path == job.list.groups[h][0];
    hide WellFormed, Aloof, Valid, After, Collisionless, Makeable, HasChild;
    ConditionsSoFar(job, start, n, i);
    TransferredSoFar(job, start, n, l);
    assert Where(job, i) == job.cfg.dest + job.list.groups[h][j] && Where(job, l) == job.cfg.dest + job.list.groups[h][0];
    SameShapeSameName(start, mid, Where(job, i));
  }

  lemma AllMembersIff(job: Job, start: FS)
    requires WellFormed(job.list) && Aloof(job) && !job.cfg.ropts.dryRun && Valid(start) && Collisionless(job, start)
    requires After(job, start, |job.list.entries|).Ok?
    ensures GroupsReady(job, After(job, start, |job.list.entries|).value.st.fs, |job.list.groups|) <==>
      forall h, j :: 0 <= h < |job.list.groups| && 1 <= j < |job.list.groups[h]| ==> MemberWelcome(job, start, h, j)
  {
    hide WellFormed, Aloof, Valid, After, Collisionless, GroupMemberReady, MemberWelcome;
    var mid := After(job, start, |job.list.entries|).value.st.fs;
    forall h, j | 0 <= h < |job.list.groups| && 1 <= j < |job.list.groups[h]|
      ensures GroupMemberReady(job, mid, h, j) <==> MemberWelcome(job, start, h, j)
    {
      MemberIff(job, start, h, j);
    }
    if forall h, j :: 0 <= h < |job.list.groups| && 1 <= j < |job.list.groups[h]| ==> MemberWelcome(job, start, h, j) {
      forall h | 0 <= h < |job.list.groups| ensures ReadyBelow(job, mid, h, |job.list.groups[h]|) {
        forall n | 1 <= n < |job.list.groups[h]| ensures GroupMemberReady(job, mid, h, n) {
          assert MemberWelcome(job, start, h, n);
        }
      }
    }
    if GroupsReady(job, mid, |job.list.groups|) {
      forall h, j | 0 <= h < |job.list.groups| && 1 <= j < |job.list.groups[h]| ensures MemberWelcome(job, start, h, j) {
        assert ReadyBelow(job, mid, h, |job.list.groups[h]|) && GroupMemberReady(job, mid, h, j);
      }
    }
  }

  /** The directory pass never fails after the entries and the links. */
  lemma PassesIff(job: Job, start: FS)
    requires WellFormed(job.list) && Aloof(job) && !job.cfg.ropts.dryRun && Valid(start) && Collisionless(job, start)
    requires After(job, start, |job.list.entries|).Ok?
    ensures Passes(job.cfg, job.list, After(job, start, |job.list.entries|).value.st.fs).Ok? <==>
      GroupsReady(job, After(job, start, |job.list.entries|).value.st.fs, |job.list.groups|)
  {
    hide WellFormed, Aloof, Valid, After, Collisionless, GroupsReady, Keeps, LinkedUpTo, LinkPass, DirPass;
    var n, mid := |job.list.entries|, After(job, start, |job.list.entries|).value.st.fs;
    AfterIsValid(job, start, n);
    PassIff(job, mid, |job.list.groups|);
    if LinkPass(job.cfg, job.list.groups, |job.list.groups|, mid).Ok? {
      var linked := LinkPass(job.cfg, job.list.groups, |job.list.groups|, mid).value;
      LinkPassHolds(job, mid, |job.list.groups|);
      forall i | 0 <= i < n && Entry(job, i).kind == Directory ensures IsDir(mid, Where(job, i)) {
        DirectorySoFar(job, start, n, i);
      }
      EndToEnd.DirSurvivesLinks(job, mid, linked);
      SecondRun.StampsAgain(job, linked, n);
    }
  }

  /**
   * A run succeeds exactly when the destination welcomes it at the start: with
   * any partial directory that keeps clear, aliased or not, dry or not, in
   * every append mode, for new and existing files, symlinks and members.
   */
  lemma RunSucceedsIff(job: Job, start: FS)
    requires WellFormed(job.list) && Valid(start) && Aloof(job) && Collisionless(job, start)
    ensures Run(job, start).Ok? <==> Welcoming(job, start)
  {
    hide WellFormed, Aloof, Valid, After, Collisionless, GroupsReady, Welcomed, MemberWelcome, LinkPass, DirPass;
    if job.cfg.ropts.dryRun {
      DryEntriesIff(job, start, |job.list.entries|);
    } else {
      EntriesIff(job, start, |job.list.entries|);
      if After(job, start, |job.list.entries|).Ok? {
        AllMembersIff(job, start);
        PassesIff(job, start);
        hide Passes;
      }
    }
  }
}
