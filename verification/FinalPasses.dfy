/** The hard-link pass and the deepest-first directory pass (internal/pipeline/receiver.go:121-137, internal/sync/hardlinks.go). */
module FinalPasses {
  import opened Prelude
  import opened FileSystem
  import opened Entries
  import opened Attributes
  import opened Receiver
  import opened SyncRun
  import opened Effects
  import opened Runs

  // ---- One member relinked ----

  /** m was relinked: other names keep inode and shape, new ones are directories above m, and only those above m change attributes. */
  ghost predicate Relinked(fs: FS, after: FS, m: Path) {
    && (forall q :: q in fs.names && q != m ==>
          q in after.names && after.names[q] == fs.names[q] && ShapeAt(after, q) == ShapeAt(fs, q))
    && (forall q :: q in after.names && q !in fs.names && q != m ==> IsDir(after, q))
    && (forall q :: q in fs.names && q != m && !(q < m) ==> Lookup(after, q) == Lookup(fs, q))
  }

  lemma RelinkedTransitive(a: FS, b: FS, c: FS, m: Path)
    requires Relinked(a, b, m) && Relinked(b, c, m)
    ensures Relinked(a, c, m)
  {
  }

  lemma MkdirRelinks(cfg: Config, fs: FS, m: Path)
    requires Valid(fs) && m != [] && MkdirAll(cfg.proc, fs, Parent(m)).Ok?
    ensures Valid(MkdirAll(cfg.proc, fs, Parent(m)).value)
    ensures Relinked(fs, MkdirAll(cfg.proc, fs, Parent(m)).value, m)
  {
    assert Parent(m) <= m && Parent(m) < m;
    MkdirAllWorks(cfg.proc, fs, Parent(m), m);
  }

  lemma RemoveRelinks(cfg: Config, fs: FS, m: Path)
    requires Valid(fs) && Remove(cfg.proc, fs, m).Ok?
    ensures Valid(Remove(cfg.proc, fs, m).value)
    ensures Relinked(fs, Remove(cfg.proc, fs, m).value, m)
  {
    RemoveWorks(cfg.proc, fs, m);
  }

  lemma LinkToRelinks(cfg: Config, fs: FS, f: Path, m: Path)
    requires Valid(fs) && f != m && LinkTo(cfg.proc, fs, f, m).Ok?
    ensures Valid(LinkTo(cfg.proc, fs, f, m).value)
    ensures Relinked(fs, LinkTo(cfg.proc, fs, f, m).value, m)
    ensures Shares(LinkTo(cfg.proc, fs, f, m).value, m, f)
  {
    LinkToFacts(cfg.proc, fs, f, m);
  }

  lemma LinkMemberEffect(cfg: Config, first: Path, member: Path, fs: FS)
    requires Valid(fs) && member != [] && first != member && LinkMember(cfg, first, member, fs).Ok?
    ensures Valid(LinkMember(cfg, first, member, fs).value)
    ensures Relinked(fs, LinkMember(cfg, first, member, fs).value, cfg.dest + member)
    ensures Shares(LinkMember(cfg, first, member, fs).value, cfg.dest + member, cfg.dest + first)
  {
    hide Valid, Relinked, MkdirAll, Remove, LinkTo;
    var m, f := cfg.dest + member, cfg.dest + first;
    PrefixUnder(cfg.dest, first, member);
    var made := MkdirAll(cfg.proc, fs, Parent(m)).value;
    MkdirRelinks(cfg, fs, m);
    var gone := Remove(cfg.proc, made, m).value;
    RemoveRelinks(cfg, made, m);
    RelinkedTransitive(fs, made, gone, m);
    LinkToRelinks(cfg, gone, f, m);
    RelinkedTransitive(fs, gone, LinkTo(cfg.proc, gone, f, m).value, m);
  }

  // ---- The whole pass ----

  ghost predicate Member(job: Job, q: Path) {
    exists p {:trigger Secondary(job.list.groups, p)} :: Secondary(job.list.groups, p) && q == job.cfg.dest + p
  }

  ghost predicate AboveMember(job: Job, q: Path) {
    exists p {:trigger Secondary(job.list.groups, p)} :: Secondary(job.list.groups, p) && q < job.cfg.dest + p
  }

  /** Names that are not secondary members keep inode and shape; those not above one keep everything. */
  ghost predicate Keeps(job: Job, from: FS, fs: FS) {
    && Valid(fs)
    && (forall q :: q in from.names && !Member(job, q) ==>
          q in fs.names && fs.names[q] == from.names[q] && ShapeAt(fs, q) == ShapeAt(from, q))
    && (forall q :: q in fs.names && q !in from.names && !Member(job, q) ==> IsDir(fs, q))
    && (forall q :: q in from.names && !Member(job, q) && !AboveMember(job, q) ==> Lookup(fs, q) == Lookup(from, q))
  }

  lemma KeepsStep(job: Job, from: FS, fs: FS, after: FS, p: Path)
    requires Keeps(job, from, fs) && Valid(after) && Secondary(job.list.groups, p)
    requires Relinked(fs, after, job.cfg.dest + p)
    ensures Keeps(job, from, after)
  {
    var m := job.cfg.dest + p;
    assert Member(job, m);
    forall q | q in from.names && !Member(job, q) && !AboveMember(job, q) ensures Lookup(after, q) == Lookup(from, q) {
      assert q != m && !(q < m);
    }
  }

  /** Member n of group h is linked to the group's first, for every group before g and the members of g before k. */
  ghost predicate LinkedUpTo(job: Job, fs: FS, g: nat, k: nat) {
    forall h, n :: 0 <= h < |job.list.groups| && 1 <= n < |job.list.groups[h]| && (h < g || (h == g && n < k)) ==>
      Shares(fs, job.cfg.dest + job.list.groups[h][n], job.cfg.dest + job.list.groups[h][0])
  }

  lemma MembersDiffer(job: Job, g: nat, m: nat, h: nat, n: nat)
    requires WellFormed(job.list) && g < |job.list.groups| && m < |job.list.groups[g]|
    requires h < |job.list.groups| && n < |job.list.groups[h]| && (g != h || m != n)
    ensures job.list.groups[g][m] != job.list.groups[h][n]
    ensures job.cfg.dest + job.list.groups[g][m] != job.cfg.dest + job.list.groups[h][n]
  {
    PrefixUnder(job.cfg.dest, job.list.groups[g][m], job.list.groups[h][n]);
  }

  lemma MemberIsSecondary(list: FileList, g: nat, m: nat)
    requires WellFormed(list) && g < |list.groups| && 1 <= m < |list.groups[g]|
    ensures Secondary(list.groups, list.groups[g][m]) && list.groups[g][m] != []
  {
    assert list.groups[g][1..][m - 1] == list.groups[g][m];
    assert Listed(list, list.groups[g][m]);
  }

  lemma LinkedStep(job: Job, fs: FS, after: FS, g: nat, k: nat)
    requires WellFormed(job.list) && g < |job.list.groups| && 1 <= k < |job.list.groups[g]|
    requires LinkedUpTo(job, fs, g, k)
    requires Relinked(fs, after, job.cfg.dest + job.list.groups[g][k])
    requires Shares(after, job.cfg.dest + job.list.groups[g][k], job.cfg.dest + job.list.groups[g][0])
    ensures LinkedUpTo(job, after, g, k + 1)
  {
    hide WellFormed;
    forall h, n | 0 <= h < |job.list.groups| && 1 <= n < |job.list.groups[h]| && (h < g || (h == g && n < k + 1))
      ensures Shares(after, job.cfg.dest + job.list.groups[h][n], job.cfg.dest + job.list.groups[h][0])
    {
      if h != g || n != k {
        MembersDiffer(job, g, k, h, n);
        MembersDiffer(job, g, k, h, 0);
        assert Shares(fs, job.cfg.dest + job.list.groups[h][n], job.cfg.dest + job.list.groups[h][0]);
      }
    }
  }

  lemma {:induction false} LinkGroupHolds(job: Job, from: FS, fs: FS, g: nat, k: nat)
    requires WellFormed(job.list) && g < |job.list.groups| && 1 <= k <= |job.list.groups[g]|
    requires Keeps(job, from, fs) && LinkedUpTo(job, fs, g, 1)
    requires LinkGroup(job.cfg, job.list.groups[g], k, fs).Ok?
    ensures Keeps(job, from, LinkGroup(job.cfg, job.list.groups[g], k, fs).value)
    ensures LinkedUpTo(job, LinkGroup(job.cfg, job.list.groups[g], k, fs).value, g, k)
  {
    hide Keeps, LinkedUpTo, WellFormed;
    if k > 1 {
      LinkGroupHolds(job, from, fs, g, k - 1);
      var before := LinkGroup(job.cfg, job.list.groups[g], k - 1, fs).value;
      var first, member := job.list.groups[g][0], job.list.groups[g][k - 1];
      MembersDiffer(job, g, 0, g, k - 1);
      MemberIsSecondary(job.list, g, k - 1);
      KeepsIsValid(job, from, before);
      LinkMemberEffect(job.cfg, first, member, before);
      KeepsStep(job, from, before, LinkMember(job.cfg, first, member, before).value, member);
      LinkedStep(job, before, LinkMember(job.cfg, first, member, before).value, g, k - 1);
    }
  }

  lemma KeepsIsValid(job: Job, from: FS, fs: FS)
    requires Keeps(job, from, fs)
    ensures Valid(fs)
  {
  }

  lemma {:induction false} LinkPassHolds(job: Job, fs: FS, k: nat)
    requires WellFormed(job.list) && k <= |job.list.groups| && Valid(fs)
    requires LinkPass(job.cfg, job.list.groups, k, fs).Ok?
    ensures Keeps(job, fs, LinkPass(job.cfg, job.list.groups, k, fs).value)
    ensures LinkedUpTo(job, LinkPass(job.cfg, job.list.groups, k, fs).value, k, 1)
  {
    hide Keeps, LinkedUpTo, WellFormed, Valid, LinkGroup;
    if k == 0 {
      NothingLinked(job, fs);
    } else {
      LinkPassHolds(job, fs, k - 1);
      var before := LinkPass(job.cfg, job.list.groups, k - 1, fs).value;
      GroupsHaveTwo(job.list, k - 1);
      LinkGroupHolds(job, fs, before, k - 1, |job.list.groups[k - 1]|);
      GroupLinked(job, LinkPass(job.cfg, job.list.groups, k, fs).value, k - 1);
    }
  }

  lemma NothingLinked(job: Job, fs: FS)
    requires Valid(fs)
    ensures Keeps(job, fs, fs) && LinkedUpTo(job, fs, 0, 1)
  {
  }

  lemma GroupsHaveTwo(list: FileList, g: nat)
    requires WellFormed(list) && g < |list.groups|
    ensures 2 <= |list.groups[g]|
  {
  }

  lemma GroupLinked(job: Job, fs: FS, g: nat)
    requires g < |job.list.groups| && LinkedUpTo(job, fs, g, |job.list.groups[g]|)
    ensures LinkedUpTo(job, fs, g + 1, 1)
  {
  }

  // ---- The directory pass ----

  ghost predicate ListedDir(job: Job, k: nat, q: Path)
    requires k <= |job.list.entries|
  {
    exists i :: 0 <= i < k && Entry(job, i).kind == Directory && Where(job, i) == q
  }

  /** From fs to after only the attributes of the first k listed directories changed. */
  ghost predicate Stamped(job: Job, k: nat, fs: FS, after: FS)
    requires k <= |job.list.entries|
  {
    && Valid(after)
    && after.names == fs.names
    && (forall q :: ShapeAt(after, q) == ShapeAt(fs, q))
    && (forall q :: !ListedDir(job, k, q) ==> Lookup(after, q) == Lookup(fs, q))
  }

  predicate DirAgrees(job: Job, i: nat, fs: FS)
    requires i < |job.list.entries|
  {
    IsDir(fs, Where(job, i)) && Agrees(Entry(job, i), Lookup(fs, Where(job, i)).value.meta, job.cfg.attrs)
  }

  ghost predicate DirsExist(job: Job, fs: FS) {
    forall i :: 0 <= i < |job.list.entries| && Entry(job, i).kind == Directory ==> IsDir(fs, Where(job, i))
  }

  ghost predicate DirsAgree(job: Job, k: nat, fs: FS)
    requires k <= |job.list.entries|
  {
    forall i :: 0 <= i < k && Entry(job, i).kind == Directory ==> DirAgrees(job, i, fs)
  }

  lemma StampedIsValid(job: Job, k: nat, a: FS, b: FS)
    requires k <= |job.list.entries| && Stamped(job, k, a, b)
    ensures Valid(b)
  {
  }

  lemma StampOne(job: Job, k: nat, fs: FS)
    requires k < |job.list.entries| && Valid(fs) && IsDir(fs, Where(job, k)) && Entry(job, k).kind == Directory
    requires ApplyPlain(fs, Entry(job, k), Where(job, k), job.cfg.attrs).Ok?
    ensures Stamped(job, k + 1, fs, ApplyPlain(fs, Entry(job, k), Where(job, k), job.cfg.attrs).value)
    ensures DirAgrees(job, k, ApplyPlain(fs, Entry(job, k), Where(job, k), job.cfg.attrs).value)
  {
    var p := Where(job, k);
    ApplyPlainWorks(fs, Entry(job, k), p, job.cfg.attrs);
    var after := ApplyPlain(fs, Entry(job, k), p, job.cfg.attrs).value;
    assert ShapeAt(after, p) == ShapeAt(fs, p);
    forall q | !ListedDir(job, k + 1, q) ensures Lookup(after, q) == Lookup(fs, q) {
      assert q != p;
    }
  }

  lemma StampedTransitive(job: Job, k: nat, a: FS, b: FS, c: FS)
    requires k < |job.list.entries| && Stamped(job, k + 1, a, b) && Stamped(job, k, b, c)
    ensures Stamped(job, k + 1, a, c)
  {
    forall q | !ListedDir(job, k + 1, q) ensures Lookup(c, q) == Lookup(a, q) {
      assert !ListedDir(job, k, q);
    }
  }

  lemma NotListedBefore(job: Job, k: nat)
    requires WellFormed(job.list) && k < |job.list.entries|
    ensures !ListedDir(job, k, Where(job, k))
  {
    forall i | 0 <= i < k ensures Where(job, i) != Where(job, k) {
      Order(job, i, k);
    }
  }

  lemma StampedKeepsDirs(job: Job, k: nat, a: FS, b: FS)
    requires k < |job.list.entries| && Stamped(job, k + 1, a, b)
    requires DirsExist(job, a)
    ensures DirsExist(job, b)
  {
    forall i | 0 <= i < |job.list.entries| && Entry(job, i).kind == Directory ensures IsDir(b, Where(job, i)) {
      assert ShapeAt(b, Where(job, i)) == ShapeAt(a, Where(job, i));
    }
  }

  /** Every listed directory ends with its own attributes; nothing else changes. */
  lemma {:induction false} DirPassHolds(job: Job, fs: FS, k: nat)
    requires WellFormed(job.list) && k <= |job.list.entries| && Valid(fs)
    requires DirsExist(job, fs)
    requires DirPass(job.cfg, job.list.entries, k, fs).Ok?
    ensures Stamped(job, k, fs, DirPass(job.cfg, job.list.entries, k, fs).value)
    ensures DirsAgree(job, k, DirPass(job.cfg, job.list.entries, k, fs).value)
    decreases k
  {
    hide Stamped, Valid, WellFormed, DirsExist;
    if k > 0 {
      var e := Entry(job, k - 1);
      var after := DirPass(job.cfg, job.list.entries, k, fs).value;
      if e.kind != Directory {
        DirPassHolds(job, fs, k - 1);
        StampedWider(job, k - 1, fs, after);
      } else {
        var one := ApplyPlain(fs, e, Where(job, k - 1), job.cfg.attrs).value;
        DirExists(job, k - 1, fs);
        StampOne(job, k - 1, fs);
        StampedIsValid(job, k, fs, one);
        StampedKeepsDirs(job, k - 1, fs, one);
        DirPassHolds(job, one, k - 1);
        StampedTransitive(job, k - 1, fs, one, after);
        LaterStampsLeave(job, k - 1, one, after);
      }
    } else {
      StampedNothing(job, fs);
    }
  }

  lemma LaterStampsLeave(job: Job, k: nat, a: FS, b: FS)
    requires WellFormed(job.list) && k < |job.list.entries| && Stamped(job, k, a, b) && DirAgrees(job, k, a)
    ensures DirAgrees(job, k, b)
  {
    NotListedBefore(job, k);
    assert Lookup(b, Where(job, k)) == Lookup(a, Where(job, k));
  }

  lemma StampedNothing(job: Job, fs: FS)
    requires Valid(fs)
    ensures Stamped(job, 0, fs, fs)
  {
  }

  lemma DirExists(job: Job, i: nat, fs: FS)
    requires i < |job.list.entries| && DirsExist(job, fs) && Entry(job, i).kind == Directory
    ensures IsDir(fs, Where(job, i))
  {
  }

  lemma StampedWider(job: Job, k: nat, a: FS, b: FS)
    requires k < |job.list.entries| && Stamped(job, k, a, b)
    ensures Stamped(job, k + 1, a, b)
  {
    forall q | !ListedDir(job, k + 1, q) ensures Lookup(b, q) == Lookup(a, q) {
      assert !ListedDir(job, k, q);
    }
  }
}
