/**
 * The list a source tree gives (internal/sync/walk.go, and the opening of
 * Sender): walked, sorted, filtered, grouped - and always one the receiver's
 * guarantees hold for.
 */
module Walk {
  import opened Prelude
  import opened FileSystem
  import opened Entries
  import opened Ordering
  import opened Receiver
  import opened SyncRun
  import opened Effects
  import opened Runs
  import opened EndToEnd
  import Filter
  import HardLinks

  datatype WalkOptions = WalkOptions(recursive: bool, dirs: bool)

  /** No file system has an empty name or one with a slash in it. */
  ghost predicate ProperNames(fs: FS) {
    forall p :: p in fs.names ==> Proper(p)
  }

  /** What the walk lists: everything below root, or only root's own children, directories among them as asked. */
  predicate Visited(fs: FS, root: Path, opts: WalkOptions, p: Path) {
    p in fs.names && root < p && (opts.recursive || (|p| == |root| + 1 && (opts.dirs || !IsDir(fs, p))))
  }

  function KindOf(inode: Inode): Kind {
    match inode
    case File(_, _) => Regular
    case Dir(_) => Directory
    case Link(_, _) => Symlinked
  }

  function VisitedPaths(fs: FS, root: Path, opts: WalkOptions): (paths: set<Path>)
    ensures forall p :: p in paths <==> Visited(fs, root, opts, p)
  {
    set p | p in fs.names && Visited(fs, root, opts, p)
  }

  /** buildFileEntry of p, with its path below root. */
  function EntryAt(fs: FS, root: Path, p: Path): FileEntry
    requires Lookup(fs, p).Some? && root <= p
  {
    var inode := Lookup(fs, p).value;
    FileEntry(p[|root|..], KindOf(inode), if inode.File? then |inode.content| else 0, inode.meta.mtime, inode.meta.mode,
              inode.meta.uid, inode.meta.gid, true, if inode.Link? then inode.target else "")
  }

  function EntryName(e: FileEntry): string {
    Render(e.path)
  }

  /** e is what the walk makes of some path it visits. */
  ghost predicate Describes(fs: FS, root: Path, opts: WalkOptions, e: FileEntry) {
    && Visited(fs, root, opts, root + e.path)
    && Lookup(fs, root + e.path).Some?
    && e == EntryAt(fs, root, root + e.path)
  }

  /** Every visited path once, in byte order. */
  ghost predicate Listing(fs: FS, root: Path, opts: WalkOptions, entries: seq<FileEntry>) {
    && Increasing(EntryName, entries)
    && (forall e :: e in entries <==> Describes(fs, root, opts, e))
  }

  /** The order in which directories are read decides nothing. */
  lemma ListingIsUnique(fs: FS, root: Path, opts: WalkOptions, a: seq<FileEntry>, b: seq<FileEntry>)
    requires Listing(fs, root, opts, a) && Listing(fs, root, opts, b)
    ensures a == b
  {
    hide Describes;
    IncreasingIsUnique(EntryName, a, b);
  }

  lemma Below(root: Path, p: Path)
    requires root <= p
    ensures root + p[|root|..] == p
    ensures forall rel: Path :: p == root + rel ==> rel == p[|root|..]
  {
  }

  lemma DescribedPath(fs: FS, root: Path, opts: WalkOptions, p: Path)
    requires Valid(fs) && Visited(fs, root, opts, p)
    ensures Lookup(fs, p).Some? && Describes(fs, root, opts, EntryAt(fs, root, p)) && root + EntryAt(fs, root, p).path == p
  {
    Below(root, p);
  }

  lemma DescribedIsProper(fs: FS, root: Path, opts: WalkOptions, e: FileEntry)
    requires ProperNames(fs) && Describes(fs, root, opts, e)
    ensures Proper(e.path) && e.path != []
  {
    var p := root + e.path;
    assert Proper(p);
    forall i | 0 <= i < |e.path| ensures ProperName(e.path[i]) {
      assert p[|root| + i] == e.path[i];
    }
  }

  lemma SameNameSameEntry(fs: FS, root: Path, opts: WalkOptions, a: FileEntry, b: FileEntry)
    requires ProperNames(fs) && Describes(fs, root, opts, a) && Describes(fs, root, opts, b) && EntryName(a) == EntryName(b)
    ensures a == b
  {
    DescribedIsProper(fs, root, opts, a);
    DescribedIsProper(fs, root, opts, b);
    RenderIsInjective(a.path, b.path);
  }

  /** entries describes exactly the paths in `seen`, each once. */
  ghost predicate Gathered(fs: FS, root: Path, opts: WalkOptions, seen: set<Path>, entries: seq<FileEntry>) {
    && (forall i :: 0 <= i < |entries| ==> Describes(fs, root, opts, entries[i]) && root + entries[i].path in seen)
    && (forall p :: p in seen ==> exists i :: 0 <= i < |entries| && root + entries[i].path == p)
    && (forall i, j :: 0 <= i < j < |entries| ==> entries[i] != entries[j])
  }

  lemma GatherOne(fs: FS, root: Path, opts: WalkOptions, seen: set<Path>, entries: seq<FileEntry>, p: Path)
    requires Valid(fs) && Gathered(fs, root, opts, seen, entries) && p !in seen && Visited(fs, root, opts, p)
    ensures Lookup(fs, p).Some? && root <= p && Gathered(fs, root, opts, seen + {p}, entries + [EntryAt(fs, root, p)])
  {
    assert root <= p;
    hide Describes, Valid, Visited, EntryAt;
    DescribedPath(fs, root, opts, p);
    var last := EntryAt(fs, root, p);
    OneMoreFound(root, seen, entries, p, last);
    forall i | 0 <= i < |entries| ensures entries[i] != last {
      assert root + entries[i].path in seen;
    }
  }

  lemma OneMoreFound(root: Path, seen: set<Path>, entries: seq<FileEntry>, p: Path, last: FileEntry)
    requires root + last.path == p
    requires forall q :: q in seen ==> exists i :: 0 <= i < |entries| && root + entries[i].path == q
    ensures forall q :: q in seen + {p} ==> exists i :: 0 <= i < |entries + [last]| && root + (entries + [last])[i].path == q
  {
    var more := entries + [last];
    forall q | q in seen + {p} ensures exists i :: 0 <= i < |more| && root + more[i].path == q {
      if q == p {
        assert root + more[|entries|].path == q;
      } else {
        var i :| 0 <= i < |entries| && root + entries[i].path == q;
        assert root + more[i].path == q;
      }
    }
  }

  lemma GatheredIsListing(fs: FS, root: Path, opts: WalkOptions, seen: set<Path>, entries: seq<FileEntry>)
    requires Valid(fs) && ProperNames(fs) && Gathered(fs, root, opts, seen, entries)
    requires forall p :: Visited(fs, root, opts, p) ==> p in seen
    ensures Listing(fs, root, opts, SortBy(EntryName, entries))
  {
    hide Describes, Valid, ProperNames, SortBy;
    forall i, j | 0 <= i < j < |entries| ensures EntryName(entries[i]) != EntryName(entries[j]) {
      if EntryName(entries[i]) == EntryName(entries[j]) {
        SameNameSameEntry(fs, root, opts, entries[i], entries[j]);
      }
    }
    SortByFacts(EntryName, entries);
    forall e ensures e in entries <==> Describes(fs, root, opts, e) {
      if Describes(fs, root, opts, e) {
        DescribedIsVisited(fs, root, opts, e);
        var i :| 0 <= i < |entries| && root + entries[i].path == root + e.path;
        DescribedOnce(fs, root, opts, entries[i], e);
      }
    }
  }

  lemma DescribedIsVisited(fs: FS, root: Path, opts: WalkOptions, e: FileEntry)
    requires Describes(fs, root, opts, e)
    ensures Visited(fs, root, opts, root + e.path)
  {
  }

  lemma DescribedOnce(fs: FS, root: Path, opts: WalkOptions, a: FileEntry, b: FileEntry)
    requires Describes(fs, root, opts, a) && Describes(fs, root, opts, b) && root + a.path == root + b.path
    ensures a == b
  {
  }

  lemma NothingGathered(fs: FS, root: Path, opts: WalkOptions)
    ensures Gathered(fs, root, opts, {}, [])
  {
  }

  /** The walk proper: each path once, in whatever order directories are read. */
  method Gather(fs: FS, root: Path, opts: WalkOptions) returns (entries: seq<FileEntry>)
    requires Valid(fs)
    ensures Gathered(fs, root, opts, VisitedPaths(fs, root, opts), entries)
  {
    hide Gathered, Valid, Visited, VisitedPaths, EntryAt, Lookup;
    var remaining := VisitedPaths(fs, root, opts);
    ghost var seen: set<Path> := {};
    entries := [];
    NothingGathered(fs, root, opts);
    while remaining != {}
      invariant seen + remaining == VisitedPaths(fs, root, opts) && seen !! remaining
      invariant Gathered(fs, root, opts, seen, entries)
      decreases remaining
    {
      var p :| p in remaining;
      GatherOne(fs, root, opts, seen, entries, p);
      entries := entries + [EntryAt(fs, root, p)];
      remaining := remaining - {p};
      seen := seen + {p};
    }
    assert seen == VisitedPaths(fs, root, opts);
  }

  method Walk(fs: FS, root: Path, opts: WalkOptions) returns (r: Result<seq<FileEntry>, FsError>)
    requires Valid(fs) && ProperNames(fs)
    ensures r.Ok? <==> root in fs.names
    ensures r.Ok? ==> Listing(fs, root, opts, r.value)
  {
    if root !in fs.names {
      return Err(ENOENT);
    }
    hide Gathered, Valid, ProperNames, Visited, VisitedPaths, Listing, SortBy;
    var entries := Gather(fs, root, opts);
    GatheredIsListing(fs, root, opts, VisitedPaths(fs, root, opts), entries);
    return Ok(SortBy(EntryName, entries));
  }

  // ---- The list the sender sends is well formed ----

  /** Any part of a listing, in its order. */
  ghost predicate PartOf(fs: FS, root: Path, opts: WalkOptions, entries: seq<FileEntry>) {
    Increasing(EntryName, entries) && forall i :: 0 <= i < |entries| ==> Describes(fs, root, opts, entries[i])
  }

  lemma KeptIsPart(fs: FS, root: Path, opts: WalkOptions, entries: seq<FileEntry>, glob: Filter.Glob, rules: seq<Filter.Rule>)
    requires Listing(fs, root, opts, entries)
    ensures PartOf(fs, root, opts, Filter.Kept(glob, entries, rules))
  {
    hide Describes, EntryName;
    Filter.KeptInOrder(glob, entries, rules);
    var kept, places := Filter.Kept(glob, entries, rules), Filter.Places(glob, entries, rules);
    forall i | 0 <= i < |kept| ensures Describes(fs, root, opts, kept[i]) {
      assert kept[i] == entries[places[i]];
    }
    forall i, j | 0 <= i < j < |kept| ensures Less(EntryName(kept[i]), EntryName(kept[j])) {
      assert places[i] < places[j];
    }
  }

  lemma PartIsDistinct(fs: FS, root: Path, opts: WalkOptions, entries: seq<FileEntry>)
    requires PartOf(fs, root, opts, entries)
    ensures HardLinks.DistinctPaths(entries)
  {
    hide Describes;
    forall i, j | 0 <= i < j < |entries| ensures Render(entries[i].path) != Render(entries[j].path) {
      LessIsTotal(EntryName(entries[i]), EntryName(entries[j]));
    }
  }

  /** Parents first, and only directories have anything below them. */
  lemma PartIsOrdered(fs: FS, root: Path, opts: WalkOptions, entries: seq<FileEntry>, i: nat, j: nat)
    requires Valid(fs) && PartOf(fs, root, opts, entries) && i < j < |entries|
    ensures entries[i].path != [] && !(entries[j].path <= entries[i].path)
    ensures entries[i].path < entries[j].path ==> entries[i].kind == Directory
  {
    hide Valid, Describes, Less, Render;
    var p, q := entries[i].path, entries[j].path;
    DescribedFacts(fs, root, opts, entries[i]);
    DescribedFacts(fs, root, opts, entries[j]);
    LessIsTotal(Render(p), Render(q));
    assert Less(EntryName(entries[i]), EntryName(entries[j]));
    assert q <= p ==> q == p || q < p;
    if q < p {
      ParentComesFirst(q, p);
    }
    if p < q {
      PrefixUnder(root, p, q);
      AboveIsDir(fs, root + q, root + p);
    }
  }

  lemma DescribedFacts(fs: FS, root: Path, opts: WalkOptions, e: FileEntry)
    requires Describes(fs, root, opts, e)
    ensures e.path != [] && root + e.path in fs.names
    ensures IsDir(fs, root + e.path) <==> e.kind == Directory
  {
  }

  lemma PartIsWellFormed(fs: FS, root: Path, opts: WalkOptions, entries: seq<FileEntry>, stat: HardLinks.Identities, groups: seq<Group>)
    requires Valid(fs) && PartOf(fs, root, opts, entries)
    requires groups == [] || HardLinks.Canonical(stat, entries, groups)
    ensures WellFormed(FileList(entries, groups))
  {
    forall i | 0 <= i < |entries| ensures entries[i].path != [] {
      assert Describes(fs, root, opts, entries[i]);
    }
    hide Valid, PartOf;
    forall i, j | 0 <= i < j < |entries|
      ensures !(entries[j].path <= entries[i].path) && (entries[i].path < entries[j].path ==> entries[i].kind == Directory)
    {
      PartIsOrdered(fs, root, opts, entries, i, j);
    }
    if groups != [] {
      GroupsAreWellFormed(stat, entries, groups);
    }
  }

  lemma GroupsAreWellFormed(stat: HardLinks.Identities, entries: seq<FileEntry>, groups: seq<Group>)
    requires HardLinks.Canonical(stat, entries, groups)
    ensures forall g :: 0 <= g < |groups| ==> 2 <= |groups[g]|
    ensures forall g, m :: 0 <= g < |groups| && 0 <= m < |groups[g]| ==> Listed(FileList(entries, groups), groups[g][m])
    ensures forall g, m, h, n :: (0 <= g < |groups| && 0 <= m < |groups[g]| && 0 <= h < |groups| && 0 <= n < |groups[h]| && groups[g][m] == groups[h][n]) ==> g == h && m == n
  {
    forall g, m | 0 <= g < |groups| && 0 <= m < |groups[g]| ensures Listed(FileList(entries, groups), groups[g][m]) {
      assert HardLinks.Candidate(stat, entries, groups[g][m]);
    }
    forall g, m, h, n | 0 <= g < |groups| && 0 <= m < |groups[g]| && 0 <= h < |groups| && 0 <= n < |groups[h]| && groups[g][m] == groups[h][n]
      ensures g == h && m == n
    {
      OnePlace(stat, entries, groups, g, m, h, n);
    }
  }

  lemma OnePlace(stat: HardLinks.Identities, entries: seq<FileEntry>, groups: seq<Group>, g: nat, m: nat, h: nat, n: nat)
    requires HardLinks.Canonical(stat, entries, groups)
    requires g < |groups| && m < |groups[g]| && h < |groups| && n < |groups[h]| && groups[g][m] == groups[h][n]
    ensures g == h && m == n
  {
    var p := groups[g][m];
    assert p in groups[g] && p in groups[h];
    LessIsTotal(Render(p), Render(p));
  }

  // ---- The opening of Sender ----

  /** lstat of the listed files: the source is on one device. */
  function IdentitiesOf(fs: FS, root: Path, entries: seq<FileEntry>): HardLinks.Identities {
    if entries == [] then map[]
    else
      var known, p := IdentitiesOf(fs, root, entries[..|entries| - 1]), entries[|entries| - 1].path;
      if root + p in fs.names then known[p := Some(HardLinks.InodeKey(0, fs.names[root + p]))] else known
  }

  lemma {:induction false} IdentityOf(fs: FS, root: Path, entries: seq<FileEntry>, i: nat)
    requires i < |entries| && root + entries[i].path in fs.names
    ensures entries[i].path in IdentitiesOf(fs, root, entries)
    ensures IdentitiesOf(fs, root, entries)[entries[i].path] == Some(HardLinks.InodeKey(0, fs.names[root + entries[i].path]))
  {
    if i < |entries| - 1 {
      assert entries[..|entries| - 1][i] == entries[i];
      IdentityOf(fs, root, entries[..|entries| - 1], i);
    }
  }

  /** What a tree, options, rules and -H make the sender send: the walk's listing, filtered, and its hard-link groups. */
  ghost predicate Sends(fs: FS, root: Path, opts: WalkOptions, glob: Filter.Glob, rules: seq<Filter.Rule>, hardLinks: bool, list: FileList) {
    && (exists listing :: Listing(fs, root, opts, listing) && list.entries == Filter.Kept(glob, listing, rules))
    && (if hardLinks then HardLinks.Canonical(IdentitiesOf(fs, root, list.entries), list.entries, list.groups) else list.groups == [])
  }

  lemma SentIsPart(fs: FS, root: Path, opts: WalkOptions, glob: Filter.Glob, rules: seq<Filter.Rule>, hardLinks: bool, list: FileList)
    requires Sends(fs, root, opts, glob, rules, hardLinks, list)
    ensures PartOf(fs, root, opts, list.entries)
  {
    hide Listing, PartOf, HardLinks.Canonical;
    var listing :| Listing(fs, root, opts, listing) && list.entries == Filter.Kept(glob, listing, rules);
    KeptIsPart(fs, root, opts, listing, glob, rules);
  }

  /** Whatever the tree, the options and the rules, with or without -H, the list that is sent is well formed. */
  lemma SentListIsWellFormed(fs: FS, root: Path, opts: WalkOptions, glob: Filter.Glob, rules: seq<Filter.Rule>, hardLinks: bool, list: FileList)
    requires Valid(fs) && Sends(fs, root, opts, glob, rules, hardLinks, list)
    ensures WellFormed(list)
  {
    hide Valid, PartOf, WellFormed, HardLinks.Canonical, Listing;
    SentIsPart(fs, root, opts, glob, rules, hardLinks, list);
    PartIsWellFormed(fs, root, opts, list.entries, IdentitiesOf(fs, root, list.entries), list.groups);
  }

  /** And it is the only one. */
  lemma SentListIsUnique(fs: FS, root: Path, opts: WalkOptions, glob: Filter.Glob, rules: seq<Filter.Rule>, hardLinks: bool, a: FileList, b: FileList)
    requires Sends(fs, root, opts, glob, rules, hardLinks, a) && Sends(fs, root, opts, glob, rules, hardLinks, b)
    ensures a == b
  {
    hide Listing, HardLinks.Canonical;
    var x :| Listing(fs, root, opts, x) && a.entries == Filter.Kept(glob, x, rules);
    var y :| Listing(fs, root, opts, y) && b.entries == Filter.Kept(glob, y, rules);
    ListingIsUnique(fs, root, opts, x, y);
    if hardLinks {
      HardLinks.CanonicalIsUnique(IdentitiesOf(fs, root, a.entries), a.entries, a.groups, b.groups);
    }
  }

  /** Sender up to its first write: walk, filter, and group when asked to. */
  method OpenTransfer(fs: FS, root: Path, opts: WalkOptions, glob: Filter.Glob, rules: seq<Filter.Rule>, hardLinks: bool) returns (r: Result<FileList, FsError>)
    requires Valid(fs) && ProperNames(fs)
    ensures r.Ok? <==> root in fs.names
    ensures r.Ok? ==> Sends(fs, root, opts, glob, rules, hardLinks, r.value) && WellFormed(r.value)
  {
    hide Valid, ProperNames, Listing, HardLinks.Canonical, HardLinks.DistinctPaths, PartOf, WellFormed, Describes, Filter.Kept, IdentitiesOf;
    var walked := Walk(fs, root, opts);
    if walked.Err? {
      return Err(walked.error);
    }
    var entries := Filter.FilterEntries(glob, walked.value, rules);
    KeptIsPart(fs, root, opts, walked.value, glob, rules);
    var groups: seq<Group> := [];
    if hardLinks {
      PartIsDistinct(fs, root, opts, entries);
      var detected := HardLinks.DetectHardLinks(IdentitiesOf(fs, root, entries), entries);
      PartIsIdentified(fs, root, opts, entries);
      groups := detected.value;
    }
    PartIsWellFormed(fs, root, opts, entries, IdentitiesOf(fs, root, entries), groups);
    return Ok(FileList(entries, groups));
  }

  lemma PartIsIdentified(fs: FS, root: Path, opts: WalkOptions, entries: seq<FileEntry>)
    requires PartOf(fs, root, opts, entries)
    ensures forall i :: 0 <= i < |entries| ==> entries[i].path in IdentitiesOf(fs, root, entries)
  {
    forall i | 0 <= i < |entries| ensures entries[i].path in IdentitiesOf(fs, root, entries) {
      assert Describes(fs, root, opts, entries[i]);
      IdentityOf(fs, root, entries, i);
    }
  }

  // ---- From tree to tree ----

  /** The job is the transfer of the tree below root: the list that is sent, and the contents of the files on it. */
  ghost predicate Carries(job: Job, fs: FS, root: Path, opts: WalkOptions, glob: Filter.Glob, rules: seq<Filter.Rule>, hardLinks: bool) {
    && Valid(fs) && Sends(fs, root, opts, glob, rules, hardLinks, job.list)
    && forall i :: 0 <= i < |job.list.entries| && Entry(job, i).kind == Regular ==>
         Entry(job, i).path in job.src && Some(job.src[Entry(job, i).path]) == ContentAt(fs, root + Entry(job, i).path)
  }

  lemma CarriedFacts(job: Job, fs: FS, root: Path, opts: WalkOptions, glob: Filter.Glob, rules: seq<Filter.Rule>, hardLinks: bool, i: nat)
    requires Carries(job, fs, root, opts, glob, rules, hardLinks) && i < |job.list.entries| && Entry(job, i).kind == Regular
    ensures TakenFrom(job, fs, root, IdentitiesOf(fs, root, job.list.entries), Entry(job, i).path)
  {
    hide Valid, Listing, HardLinks.Canonical;
    SentIsPart(fs, root, opts, glob, rules, hardLinks, job.list);
    assert Describes(fs, root, opts, Entry(job, i));
    IdentityOf(fs, root, job.list.entries, i);
  }

  predicate TakenFrom(job: Job, fs: FS, root: Path, stat: HardLinks.Identities, p: Path) {
    && root + p in fs.names
    && p in job.src && Some(job.src[p]) == ContentAt(fs, root + p)
    && p in stat && stat[p] == Some(HardLinks.InodeKey(0, fs.names[root + p]))
  }

  /**
   * Tree to tree: onto an unaliased destination, every listed regular file -
   * hard-linked or not - arrives with the bytes it has in the source tree.
   */
  lemma TreeArrives(job: Job, fs: FS, root: Path, opts: WalkOptions, glob: Filter.Glob, rules: seq<Filter.Rule>, hardLinks: bool, start: FS, i: nat)
    requires Carries(job, fs, root, opts, glob, rules, hardLinks)
    requires Safe(job, start) && Plain(job.cfg) && !job.cfg.ropts.AppendMode() && Honest(job, start) && Run(job, start).Ok?
    requires i < |job.list.entries| && Entry(job, i).kind == Regular
    ensures ContentAt(Final(job, start), Where(job, i)) == ContentAt(fs, root + Entry(job, i).path)
    ensures ContentAt(fs, root + Entry(job, i).path).Some?
  {
    SentListIsWellFormed(fs, root, opts, glob, rules, hardLinks, job.list);
    CarriedFacts(job, fs, root, opts, glob, rules, hardLinks, i);
    hide Run, Honest, Safe, WellFormed, Sends;
    if Own(job, i) {
      SourceArrives(job, start, i);
    } else {
      var l := SecondaryContent(job, start, i);
      SameGroupSameBytes(job, fs, root, opts, glob, rules, hardLinks, i, l);
    }
  }

  lemma SameGroupSameBytes(job: Job, fs: FS, root: Path, opts: WalkOptions, glob: Filter.Glob, rules: seq<Filter.Rule>, hardLinks: bool, i: nat, l: nat)
    requires Carries(job, fs, root, opts, glob, rules, hardLinks) && i < |job.list.entries| && l < |job.list.entries|
    requires Entry(job, i).kind == Regular && SameGroup(job.list.groups, Entry(job, i).path, Entry(job, l).path)
    ensures ContentAt(fs, root + Entry(job, l).path) == ContentAt(fs, root + Entry(job, i).path)
    ensures Entry(job, l).path in job.src ==> Some(job.src[Entry(job, l).path]) == ContentAt(fs, root + Entry(job, i).path)
  {
    var stat := IdentitiesOf(fs, root, job.list.entries);
    var p, q := Entry(job, i).path, Entry(job, l).path;
    var g :| 0 <= g < |job.list.groups| && p in job.list.groups[g] && q in job.list.groups[g];
    assert HardLinks.Candidate(stat, job.list.entries, p) && HardLinks.Candidate(stat, job.list.entries, q);
    var n :| 0 <= n < |job.list.entries| && job.list.entries[n].kind == Regular && job.list.entries[n].path == q;
    CarriedFacts(job, fs, root, opts, glob, rules, hardLinks, i);
    CarriedFacts(job, fs, root, opts, glob, rules, hardLinks, n);
  }

  /** Under -H, two listed files are one file at the destination exactly when they are at the source. */
  lemma TreeLinksExact(job: Job, fs: FS, root: Path, opts: WalkOptions, glob: Filter.Glob, rules: seq<Filter.Rule>, start: FS, i: nat, j: nat)
    requires Carries(job, fs, root, opts, glob, rules, true)
    requires Safe(job, start) && Plain(job.cfg) && Run(job, start).Ok?
    requires i < j < |job.list.entries| && Entry(job, i).kind == Regular && Entry(job, j).kind == Regular
    ensures Shares(Final(job, start), Where(job, i), Where(job, j)) <==> Shares(fs, root + Entry(job, i).path, root + Entry(job, j).path)
  {
    SentListIsWellFormed(fs, root, opts, glob, rules, true, job.list);
    HardLinksExact(job, start, i, j);
    var stat := IdentitiesOf(fs, root, job.list.entries);
    var p, q := Entry(job, i).path, Entry(job, j).path;
    CarriedFacts(job, fs, root, opts, glob, rules, true, i);
    CarriedFacts(job, fs, root, opts, glob, rules, true, j);
    assert HardLinks.Candidate(stat, job.list.entries, p) && HardLinks.Candidate(stat, job.list.entries, q);
    Order(job, i, j);
    assert p != q;
  }
}
