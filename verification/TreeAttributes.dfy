/** From source tree to destination: what is listed, as what, and whose attributes and link targets arrive. */
module TreeAttributes {
  import opened Prelude
  import opened FileSystem
  import opened Entries
  import opened Ordering
  import opened Attributes
  import opened Receiver
  import opened SyncRun
  import opened Effects
  import opened Runs
  import opened FinalPasses
  import opened EndToEnd
  import opened Walk
  import Filter
  import HardLinks

  /** With -r everything below root is listed, with -d root's own entries, with neither those that are no directories. */
  lemma WhatIsListed(fs: FS, root: Path, opts: WalkOptions, entries: seq<FileEntry>, rel: Path)
    requires Valid(fs) && Listing(fs, root, opts, entries)
    ensures (exists e :: e in entries && e.path == rel) <==>
      && rel != [] && root + rel in fs.names
      && if opts.recursive then true else |rel| == 1 && (IsDir(fs, root + rel) ==> opts.dirs)
  {
    hide Valid;
    if exists e :: e in entries && e.path == rel {
      var e :| e in entries && e.path == rel;
      assert Describes(fs, root, opts, e);
    }
    if Visited(fs, root, opts, root + rel) {
      DescribedPath(fs, root, opts, root + rel);
      assert EntryAt(fs, root, root + rel) in entries;
    }
    assert root < root + rel <==> rel != [];
  }

  /** The attributes of the source inode behind an entry. */
  predicate ListedFrom(e: FileEntry, inode: Inode) {
    && (e.kind == Regular <==> inode.File?) && (e.kind == Directory <==> inode.Dir?) && (e.kind == Symlinked <==> inode.Link?)
    && (inode.File? ==> e.size == |inode.content|)
    && (inode.Link? ==> e.target == inode.target)
    && e.mode == inode.meta.mode && e.mtime == inode.meta.mtime && e.uid == inode.meta.uid && e.gid == inode.meta.gid && e.ownership
  }

  lemma DescribedFrom(fs: FS, root: Path, opts: WalkOptions, e: FileEntry)
    requires Describes(fs, root, opts, e)
    ensures Lookup(fs, root + e.path).Some? && ListedFrom(e, Lookup(fs, root + e.path).value)
  {
  }

  /** Kind, size, target, mode, time and owner of every listed entry are those of what is at the source. */
  lemma ListedAsItIs(fs: FS, root: Path, opts: WalkOptions, glob: Filter.Glob, rules: seq<Filter.Rule>, hardLinks: bool, list: FileList, i: nat)
    requires Sends(fs, root, opts, glob, rules, hardLinks, list) && i < |list.entries|
    ensures Lookup(fs, root + list.entries[i].path).Some? && ListedFrom(list.entries[i], Lookup(fs, root + list.entries[i].path).value)
  {
    hide Listing, HardLinks.Canonical;
    SentIsPart(fs, root, opts, glob, rules, hardLinks, list);
    assert Describes(fs, root, opts, list.entries[i]);
    DescribedFrom(fs, root, opts, list.entries[i]);
  }

  /** The attributes asked for are carried over; of the mode that is the nine permission bits. */
  predicate CarriedOver(opts: AttrOptions, was: Meta, now: Meta) {
    && (opts.perms ==> now.mode == was.mode % 512)
    && (opts.times ==> now.mtime == was.mtime)
    && (opts.owner ==> now.uid == was.uid)
    && (opts.group ==> now.gid == was.gid)
  }

  /** One file at the source is one inode, so a member's attributes are its leader's. */
  lemma LeaderIsSameInode(job: Job, fs: FS, root: Path, opts: WalkOptions, glob: Filter.Glob, rules: seq<Filter.Rule>, hardLinks: bool, i: nat, l: nat)
    requires Carries(job, fs, root, opts, glob, rules, hardLinks) && i < |job.list.entries| && l < |job.list.entries|
    requires Entry(job, i).kind == Regular && Entry(job, l).kind == Regular && SameGroup(job.list.groups, Entry(job, i).path, Entry(job, l).path)
    ensures Lookup(fs, root + Entry(job, l).path) == Lookup(fs, root + Entry(job, i).path)
  {
    var stat := IdentitiesOf(fs, root, job.list.entries);
    var p, q := Entry(job, i).path, Entry(job, l).path;
    var g :| 0 <= g < |job.list.groups| && p in job.list.groups[g] && q in job.list.groups[g];
    CarriedFacts(job, fs, root, opts, glob, rules, hardLinks, i);
    CarriedFacts(job, fs, root, opts, glob, rules, hardLinks, l);
    assert HardLinks.Candidate(stat, job.list.entries, p) && HardLinks.Candidate(stat, job.list.entries, q);
  }

  lemma OwnAttributesArrive(job: Job, start: FS, i: nat)
    requires Sound(job, start) && Honest(job, start) && Run(job, start).Ok?
    requires i < |job.list.entries| && Own(job, i) && Entry(job, i).kind != Symlinked
    ensures Lookup(Final(job, start), Where(job, i)).Some?
    ensures Entry(job, i).kind == Directory <==> IsDir(Final(job, start), Where(job, i))
    ensures Agrees(Entry(job, i), Lookup(Final(job, start), Where(job, i)).value.meta, job.cfg.attrs)
  {
    hide Sound, Honest, Run, Final;
    RunSettles(job, start, i);
  }

  /**
   * After a successful run every listed file and directory - hard-linked or
   * not - is what it is at the source, with the selected ones of the source's
   * permission bits, time, owner and group.
   */
  lemma TreeAttributesArrive(job: Job, fs: FS, root: Path, opts: WalkOptions, glob: Filter.Glob, rules: seq<Filter.Rule>, hardLinks: bool, start: FS, i: nat)
    requires Carries(job, fs, root, opts, glob, rules, hardLinks)
    requires Safe(job, start) && Plain(job.cfg) && Honest(job, start) && Run(job, start).Ok?
    requires i < |job.list.entries| && Entry(job, i).kind != Symlinked
    ensures var from, to := Lookup(fs, root + Entry(job, i).path), Lookup(Final(job, start), Where(job, i));
      from.Some? && to.Some? && from.value.Dir? == to.value.Dir? && CarriedOver(job.cfg.attrs, from.value.meta, to.value.meta)
  {
    SentListIsWellFormed(fs, root, opts, glob, rules, hardLinks, job.list);
    ListedAsItIs(fs, root, opts, glob, rules, hardLinks, job.list, i);
    if Own(job, i) {
      hide Sends, Safe, Honest, Run, Final, WellFormed;
      OwnAttributesArrive(job, start, i);
    } else {
      hide Safe, Honest, Run, Final, WellFormed;
      var l := Leader(job, start, i);
      LeaderIsSameInode(job, fs, root, opts, glob, rules, hardLinks, i, l);
      ListedAsItIs(fs, root, opts, glob, rules, hardLinks, job.list, l);
      hide Sends;
      OwnAttributesArrive(job, start, l);
    }
  }

  /** And every listed symlink, under --links, is one with the source's target and, where selected, owner and group. */
  lemma TreeSymlinksArrive(job: Job, fs: FS, root: Path, opts: WalkOptions, glob: Filter.Glob, rules: seq<Filter.Rule>, hardLinks: bool, start: FS, i: nat)
    requires Carries(job, fs, root, opts, glob, rules, hardLinks)
    requires Safe(job, start) && Plain(job.cfg) && Honest(job, start) && Run(job, start).Ok?
    requires i < |job.list.entries| && Entry(job, i).kind == Symlinked && job.cfg.attrs.links
    ensures var from, to := Lookup(fs, root + Entry(job, i).path), Lookup(Final(job, start), Where(job, i));
      && from.Some? && to.Some? && from.value.Link? && to.value.Link? && to.value.target == from.value.target
      && CarriedOver(job.cfg.attrs.(perms := false, times := false), from.value.meta, to.value.meta)
  {
    SentListIsWellFormed(fs, root, opts, glob, rules, hardLinks, job.list);
    ListedAsItIs(fs, root, opts, glob, rules, hardLinks, job.list, i);
    hide Sends, Safe, Honest, Run, Final, WellFormed;
    RunSettles(job, start, i);
  }
}
