/**
 * Schedules that exist: names CreateTemp can find, and runs - one of them
 * written out - in which a file that was there is absent for a while.
 */
module Rehearsal {
  import opened Prelude
  import opened FileSystem
  import opened Entries
  import opened Delta
  import opened Receiver
  import opened SyncRun
  import opened TempWrite
  import opened LocalSync
  import opened Lockstep
  import opened Effects
  import opened Runs
  import opened Contents
  import opened PartialDirs
  import opened PartialMisses
  import opened Atomic
  import opened Names
  import opened Members
  import opened Presence
  import Blocks
  import Attributes
  import Interleavings
  import Wire

  // ---- Names for temporary files ----

  ghost function Longest(paths: set<Path>): (n: nat)
    ensures forall p :: p in paths ==> |Base(p)| <= n
  {
    if paths == {} then 0
    else
      var p :| p in paths;
      var rest := Longest(paths - {p});
      if |Base(p)| > rest then |Base(p)| else rest
  }

  ghost function ListedPaths(setup: Setup): set<Path> {
    set i | 0 <= i < N(setup) :: Where(setup.job, i)
  }

  /** A name longer than every name in sight. */
  ghost function Unused(taken: set<Path>, fs: FS, p: Path): Path {
    Parent(p) + [seq(Longest(taken + fs.names.Keys + {p}) + 1, _ => 'x')]
  }

  lemma UnusedIsNew(taken: set<Path>, fs: FS, p: Path)
    ensures Unused(taken, fs, p) !in taken && Unused(taken, fs, p) !in fs.names && Unused(taken, fs, p) != p
    ensures Unused(taken, fs, p) != [] && Parent(Unused(taken, fs, p)) == Parent(p)
  {
    var all := taken + fs.names.Keys + {p};
    assert |Base(Unused(taken, fs, p))| == Longest(all) + 1;
    assert Unused(taken, fs, p) !in all;
    assert p in all;
  }

  /** Names can be found that are free, and never those of a listed entry. */
  lemma NamesCanBeFound(setup: Setup)
    ensures var picks := setup.(temp := (fs, p) => Unused(ListedPaths(setup), fs, p));
      FindsNames(picks.job.cfg.proc, picks.temp) && TempUnlisted(picks)
  {
    var taken := ListedPaths(setup);
    var picks := setup.(temp := (fs, p) => Unused(taken, fs, p));
    forall fs, p | p != [] && IsDir(fs, Parent(p)) ensures OpenTemp(picks.job.cfg.proc, fs, p, picks.temp(fs, p)).Ok? {
      UnusedIsNew(taken, fs, p);
    }
    forall fs, p, i | 0 <= i < N(picks) ensures picks.temp(fs, p) != Where(picks.job, i) {
      UnusedIsNew(taken, fs, p);
      assert Where(setup.job, i) in taken;
    }
  }

  // ---- Runs without failures ----

  lemma {:induction false} CompletionIsFaultless(setup: Setup, m: Machine)
    requires Inv(setup, m)
    ensures Interleavings.Faultless(Interleavings.Completion(setup, m, _ => RunReceiver))
    decreases Interleavings.Rank(setup, m), Interleavings.BytesToFill(m.r)
  {
    hide Inv, SenderStep, ReceiverStep;
    if !BothReturned(m) {
      Interleavings.EffectiveDescends(setup, m, RunReceiver);
      OnItsWay(setup, m);
      Interleavings.RankIsNatural(setup, m.r);
      var c := Interleavings.Effective(setup, m, RunReceiver);
      CompletionIsFaultless(setup, Next(setup, m, c));
    }
  }

  lemma OnItsWay(setup: Setup, m: Machine)
    requires Inv(setup, m)
    ensures OnCourse(setup, m.r)
  {
  }

  /** Whenever the sequential run succeeds and names can be found, some schedule ends well. */
  lemma SomeScheduleSucceeds(setup: Setup) returns (schedule: seq<Choice>)
    requires Valid(setup.start) && Interleavings.TempFree(setup) && Run(setup.job, setup.start).Ok?
    ensures BothReturned(Exec(setup, schedule)) && Outcome(Exec(setup, schedule))
  {
    hide Valid, Interleavings.TempFree, Run, Inv;
    schedule := Interleavings.EveryScheduleEnds(setup, [], _ => RunReceiver);
    assert [] + schedule == schedule;
    CompletionIsFaultless(setup, Exec(setup, []));
    Interleavings.OutcomeIsDetermined(setup, schedule);
  }

  /**
   * So every run that succeeds and has a secondary member that was there
   * can be brought to the moment between its unlinking and its relinking.
   */
  lemma RelinkIsReached(setup: Setup, g: nat, n: nat) returns (schedule: seq<Choice>)
    requires Orderly(setup) && Interleavings.TempFree(setup) && Run(setup.job, setup.start).Ok?
    requires IsMember(setup.job, g, n) && MemberPath(setup.job, g, n) in setup.start.names
    ensures Exec(setup, schedule).r.Linking? && Exec(setup, schedule).r.g == g && Exec(setup, schedule).r.n == n && Exec(setup, schedule).r.step == Relink
    ensures MemberPath(setup.job, g, n) !in Disk(setup, Exec(setup, schedule)).names
  {
    OrderlyIs(setup);
    hide Orderly, Exec, WellFormed, Apart, Valid, Run, Stays;
    var whole := SomeScheduleSucceeds(setup);
    var t := PassedThrough(setup, whole, g, n);
    schedule := whole[..t];
    var s := MembersInEveryInterleaving(setup, schedule, g, n);
    assert schedule[..s] == schedule;
  }

  // ---- Two names of one file, onto a destination that has the second ----

  function OnlyB(meta: Meta, held: Bytes): FS {
    FS(map[[] := 0, ["b"] := 1], map[0 := Dir(meta), 1 := File(meta, held)], 2, 0)
  }

  ghost predicate LinksTwo(job: Job, data: Bytes) {
    && |job.list.entries| == 2 && job.list.groups == [[["a"], ["b"]]]
    && job.list.entries[0].kind == Regular && job.list.entries[0].path == ["a"]
    && job.list.entries[1].kind == Regular && job.list.entries[1].path == ["b"]
    && job.src == map[["a"] := data, ["b"] := data]
    && job.cfg.dest == [] && !job.cfg.ropts.dryRun && !job.cfg.ropts.AppendMode() && job.cfg.ropts.partialDir.None?
    && Wire.Inverts(job.cfg.codec)
  }

  lemma OnlyBHolds(meta: Meta, held: Bytes)
    ensures Valid(OnlyB(meta, held)) && IsDir(OnlyB(meta, held), []) && IsFile(OnlyB(meta, held), ["b"])
    ensures Lookup(OnlyB(meta, held), ["a"]) == None
  {
    var root: Path, a: Path, b: Path := [], ["a"], ["b"];
    assert |root| == 0 && |a| == |b| == 1 && a[0][0] == 'a' && b[0][0] == 'b';
    assert Parent(b) == root;
  }

  lemma TwoLinksAreListed(job: Job, data: Bytes)
    requires LinksTwo(job, data)
    ensures WellFormed(job.list) && Apart(job) && IsMember(job, 0, 1) && MemberPath(job, 0, 1) == ["b"]
    ensures Transfers(job.list, Entry(job, 0)) && !Transfers(job.list, Entry(job, 1)) && Where(job, 0) == ["a"] && Where(job, 1) == ["b"]
    ensures ["a"] != ["b"] && Parent(["a"]) == [] && Parent(["b"]) == []
  {
    var a: Path, b: Path := ["a"], ["b"];
    assert |a| == |b| == 1 && a[0][0] == 'a' && b[0][0] == 'b';
    assert !(b <= a) && !(a <= b);
    var group := job.list.groups[0];
    assert group[0] == a && group[1] == b && group[1..] == [b];
    assert Listed(job.list, a) && Listed(job.list, b);
    assert Where(job, 0) == a && Where(job, 1) == b;
  }

  /** The transfer of a succeeds beside b. */
  lemma FirstArrives(job: Job, meta: Meta, held: Bytes, data: Bytes)
    requires LinksTwo(job, data)
    ensures var start := OnlyB(meta, held);
      && After(job, start, 1).Ok? && Valid(After(job, start, 1).value.st.fs)
      && IsFile(After(job, start, 1).value.st.fs, ["a"]) && IsFile(After(job, start, 1).value.st.fs, ["b"])
  {
    var start, e := OnlyB(meta, held), Entry(job, 0);
    TwoLinksAreListed(job, data);
    OnlyBHolds(meta, held);
    var pr := Start(job, start);
    assert NoCollisionOn(job, e, start) by {
      assert Blocks.Split([], Blocks.DEFAULT_BLOCK_SIZE) == [];
    }
    hide NoCollisionOn, Valid, SyncEntry, Transfers, OnlyB, WellFormed;
    assert After(job, start, 0) == Ok(pr);
    ExchangeSucceeds(job, e, pr);
    TransferLands(job, e, pr);
    var after := SyncEntry(job, e, pr).value.st.fs;
    assert ContentAt(after, ["a"]).Some?;
    EntrySpares(job, e, pr, ["b"]);
    SameKind(start, after, ["b"]);
    AfterIsValid(job, start, 1);
  }

  lemma BothLink(cfg: Config, fs: FS)
    requires Valid(fs) && cfg.dest == [] && IsFile(fs, ["a"]) && IsFile(fs, ["b"]) && ["a"] != ["b"]
    ensures LinkMember(cfg, ["a"], ["b"], fs).Ok?
  {
    var a: Path, b: Path := ["a"], ["b"];
    assert cfg.dest + a == a && cfg.dest + b == b && Parent(b) == [];
    assert MkdirAll(cfg.proc, fs, Parent(b)) == Ok(fs);
    var gone := Remove(cfg.proc, fs, b).value;
    RemoveWorks(cfg.proc, fs, b);
    assert IsDir(gone, []);
    hide Remove, Valid;
    assert ShapeAt(gone, a) == ShapeAt(fs, a);
  }

  lemma TwoLinksRun(job: Job, meta: Meta, held: Bytes, data: Bytes)
    requires LinksTwo(job, data)
    ensures Run(job, OnlyB(meta, held)).Ok?
  {
    var start := OnlyB(meta, held);
    TwoLinksAreListed(job, data);
    FirstArrives(job, meta, held, data);
    hide OnlyB, WellFormed, Valid, Transfers, Apart, MkdirAll, Remove, LinkTo;
    var fs := After(job, start, 1).value.st.fs;
    assert After(job, start, 2).Ok? && After(job, start, 2).value.st.fs == fs;
    BothLink(job.cfg, fs);
    var group, linked := job.list.groups[0], LinkMember(job.cfg, ["a"], ["b"], fs).value;
    hide After, LinkMember;
    assert LinkGroup(job.cfg, group, 1, fs) == Ok(fs);
    assert LinkGroup(job.cfg, group, 2, fs) == Ok(linked);
    assert LinkPass(job.cfg, job.list.groups, 0, fs) == Ok(fs);
    assert LinkPass(job.cfg, job.list.groups, 1, fs) == Ok(linked);
    NoDirectories(job, linked);
  }

  lemma NoDirectories(job: Job, fs: FS)
    requires |job.list.entries| == 2 && Entry(job, 0).kind == Regular && Entry(job, 1).kind == Regular
    ensures DirPass(job.cfg, job.list.entries, 2, fs) == Ok(fs)
  {
    assert DirPass(job.cfg, job.list.entries, 0, fs) == Ok(fs);
    assert DirPass(job.cfg, job.list.entries, 1, fs) == Ok(fs);
  }

  /** A transfer of two names of one file onto a destination that has b: a schedule of it reaches a disk without b. */
  lemma BIsAbsentForAWhile(setup: Setup, meta: Meta, held: Bytes, data: Bytes) returns (schedule: seq<Choice>)
    requires LinksTwo(setup.job, data) && setup.start == OnlyB(meta, held) && Interleavings.TempFree(setup)
    ensures ["b"] in setup.start.names && Run(setup.job, setup.start).Ok?
    ensures ["b"] !in Disk(setup, Exec(setup, schedule)).names
    ensures Exec(setup, schedule).r.Linking? && Exec(setup, schedule).r.step == Relink
  {
    TwoLinksAreListed(setup.job, data);
    OnlyBHolds(meta, held);
    TwoLinksRun(setup.job, meta, held, data);
    assert Orderly(setup);
    hide Orderly, OnlyB, WellFormed, Valid, Transfers, Apart, Run, Exec, Interleavings.TempFree;
    schedule := RelinkIsReached(setup, 0, 1);
  }
}
