/**
 * Whatever a receiver is sent, and however it ends: what the list does not
 * name keeps its bytes.
 */
module Aftermath {
  import opened Prelude
  import opened FileSystem
  import opened Entries
  import opened Attributes
  import opened Receiver
  import opened TempWrite
  import opened Disks
  import opened Failures
  import opened Effects
  import opened Contents
  import opened Names
  import Delta
  import Replay
  import Sides

  /** No entry, no partial file and no hard-link member of the list lies at q. */
  ghost predicate Foreign(cfg: Config, list: FileList, q: Path) {
    && (forall i :: 0 <= i < |list.entries| ==> ForeignTo(cfg, list.entries[i], q))
    && (forall g, n :: 0 <= g < |list.groups| && 1 <= n < |list.groups[g]| ==> q != cfg.dest + list.groups[g][n])
  }

  predicate ForeignTo(cfg: Config, e: FileEntry, q: Path) {
    q != At(cfg, e) && (cfg.ropts.partialDir.Some? ==> q != Spot(cfg, e))
  }

  // ---- Entries that succeed ----

  lemma TakenStays(cfg: Config, e: FileEntry, plan: Plan, msg: Message, st: State, q: Path)
    requires Valid(st.fs) && e.kind == Regular && TakeDelta(cfg, e, plan, msg, st).Ok? && ForeignTo(cfg, e, q)
    ensures Stays(st.fs, TakeDelta(cfg, e, plan, msg, st).value.fs, q) && Valid(TakeDelta(cfg, e, plan, msg, st).value.fs)
  {
    Sides.TakenIsValid(cfg, e, plan, msg, st);
    hide Valid, Commit, ReadDelta, NewData, Stays, PartialPath;
    if cfg.ropts.dryRun {
      StaysHere(st.fs, q);
    } else {
      CommitStays(cfg, e, plan, NewData(plan, ReadDelta(cfg, e, msg).value).value, st.fs, q);
    }
  }

  lemma {:induction false} ReplayStays(cfg: Config, inbox: seq<Message>, fs: FS, k: nat, q: Path)
    requires Valid(fs) && inbox != [] && inbox[0].FileListMsg? && k <= |inbox[0].list.entries| && Foreign(cfg, inbox[0].list, q)
    requires Replay.ReplayAfter(cfg, inbox, fs, k).Ok?
    ensures Stays(fs, Replay.ReplayAfter(cfg, inbox, fs, k).value.st.fs, q) && Valid(Replay.ReplayAfter(cfg, inbox, fs, k).value.st.fs)
  {
    hide Valid, Prepare, TakeDelta, ReceiveLocal, Stays, PartialPath;
    if k == 0 {
      StaysHere(fs, q);
    } else {
      ReplayStays(cfg, inbox, fs, k - 1, q);
      var list, tape := inbox[0].list, Replay.ReplayAfter(cfg, inbox, fs, k - 1).value;
      var e := list.entries[k - 1];
      assert ForeignTo(cfg, e, q);
      var after := Replay.ReplayAfter(cfg, inbox, fs, k).value.st.fs;
      if !Transfers(list, e) {
        LocalStays(cfg, e, tape.st, q);
        LocalValid(cfg, e, tape.st);
      } else {
        var plan := Prepare(cfg, e, tape.st.fs).value;
        TakenStays(cfg, e, plan, inbox[tape.read], CountSent(cfg, SignatureFor(e, plan), tape.st), q);
      }
      StaysTwice(fs, tape.st.fs, after, q);
    }
  }

  // ---- An entry, however it ends ----

  lemma StaysKeepsContent(fs: FS, after: FS, q: Path)
    requires Stays(fs, after, q) && q in fs.names
    ensures ContentAt(after, q) == ContentAt(fs, q) && q in after.names
  {
    SameShapeSameContent(fs, after, q);
  }

  lemma AttributesLeaveOthers(proc: Process, fs: FS, e: FileEntry, p: Path, opts: AttrOptions, q: Path)
    requires Valid(fs) && (e.kind == Symlinked && opts.links ==> q != p)
    ensures Stays(fs, AttributesLeave(proc, fs, e, p, opts), q)
  {
    StaysHere(fs, q);
    hide Valid, WorksOn, ApplyPlain, Stays;
    if e.kind != Symlinked {
      if ApplyPlain(fs, e, p, opts).Ok? {
        PlainStays(fs, e, p, opts, q);
      }
    } else if !opts.links {
      OwnerStays(fs, e, p, opts, q);
    } else if ApplyAttributes(proc, fs, e, p, opts).Ok? {
      ApplyAttributesLinkWorks(proc, fs, e, p, opts);
      WorkStays(fs, ApplyAttributes(proc, fs, e, p, opts).value, p, q);
    } else {
      SymlinkLeavesOthers(proc, fs, e, p, q);
    }
  }

  lemma OwnerStays(fs: FS, e: FileEntry, p: Path, opts: AttrOptions, q: Path)
    ensures ApplyLinkOwner(fs, e, p, opts).Ok? ==> Stays(fs, ApplyLinkOwner(fs, e, p, opts).value, q)
  {
  }

  lemma SymlinkLeavesOthers(proc: Process, fs: FS, e: FileEntry, p: Path, q: Path)
    requires Valid(fs) && q != p
    ensures Stays(fs, SymlinkLeaves(proc, fs, e, p), q)
  {
    StaysHere(fs, q);
    hide Valid, WorksOn, Stays, Remove, Symlink;
    if e.target != "" && Remove(proc, fs, p).Ok? {
      var gone := Remove(proc, fs, p).value;
      RemoveWorks(proc, fs, p);
      WorkStays(fs, gone, p, q);
      if Symlink(proc, gone, p, e.target).Ok? {
        SymlinkWorks(proc, gone, p, e.target);
        WorkStays(gone, Symlink(proc, gone, p, e.target).value, p, q);
        StaysTwice(fs, gone, Symlink(proc, gone, p, e.target).value, q);
      }
    }
  }

  lemma LocalLeavesOthers(cfg: Config, e: FileEntry, fs: FS, q: Path)
    requires Valid(fs) && q != At(cfg, e)
    ensures Stays(fs, LocalLeaves(cfg, e, fs), q)
  {
    StaysHere(fs, q);
    hide Valid, Stays, MkdirAll, AttributesLeave, Parent, Existing;
    var p := At(cfg, e);
    if e.kind == Directory && MkdirAll(cfg.proc, fs, p).Ok? {
      MkdirStays(cfg.proc, fs, p, q);
    }
    if e.kind == Symlinked && MkdirAll(cfg.proc, fs, Parent(p)).Ok? {
      var made := MkdirAll(cfg.proc, fs, Parent(p)).value;
      MkdirStays(cfg.proc, fs, Parent(p), q);
      AttributesLeaveOthers(cfg.proc, made, e, p, cfg.attrs, q);
      StaysTwice(fs, made, AttributesLeave(cfg.proc, made, e, p, cfg.attrs), q);
    }
  }

  /** A write, whether it goes through or not. */
  lemma WriteLeavesOthers(cfg: Config, e: FileEntry, fs: FS, data: Bytes, tmp: Path, q: Path)
    requires Valid(fs) && ForeignTo(cfg, e, q) && q in fs.names
    ensures ContentAt(match WriteLeaves(cfg, e, fs, data, tmp, None) case Ok(a) => a case Err(a) => a, q) == ContentAt(fs, q)
    ensures WriteLeaves(cfg, e, fs, data, tmp, None).Ok? ==>
      Valid(WriteLeaves(cfg, e, fs, data, tmp, None).value) && Stays(fs, WriteLeaves(cfg, e, fs, data, tmp, None).value, q)
  {
    hide Valid, OpenTemp, Fill, RenameOnto, AbandonOrKeep, ContentAt, Stays, PartialPath, WorksOn;
    if OpenTemp(cfg.proc, fs, At(cfg, e), tmp).Ok? {
      var begun := OpenTemp(cfg.proc, fs, At(cfg, e), tmp).value;
      var filled := Fill(begun, tmp, data);
      OpenStays(cfg.proc, fs, At(cfg, e), tmp, q);
      OpenedBeside(cfg.proc, fs, At(cfg, e), tmp);
      FilledBeside(fs, begun, tmp, data);
      hide Beside;
      if RenameOnto(cfg.proc, filled, tmp, At(cfg, e)).Ok? {
        NotRootWhere(cfg, e, filled, tmp);
        WriteIsInstall(cfg, e, fs, data, tmp, None);
        InstallWorks(cfg.proc, fs, At(cfg, e), data);
        WorkStays(fs, Install(cfg.proc, fs, At(cfg, e), data).value, At(cfg, e), q);
        StaysKeepsContent(fs, Install(cfg.proc, fs, At(cfg, e), data).value, q);
        hide Install;
      } else {
        AbortLeaves(cfg, e, fs, filled, tmp, true, q);
      }
    }
  }

  lemma NotRootWhere(cfg: Config, e: FileEntry, fs: FS, tmp: Path)
    requires RenameOnto(cfg.proc, fs, tmp, At(cfg, e)).Ok?
    ensures At(cfg, e) != []
  {
  }

  lemma CommitLeavesOthers(cfg: Config, e: FileEntry, plan: Plan, data: Bytes, fs: FS, temp: (FS, Path) -> Path, q: Path)
    requires Valid(fs) && e.kind == Regular && ForeignTo(cfg, e, q) && q in fs.names
    ensures ContentAt(Failures.CommitLeaves(cfg, e, plan, data, fs, temp), q) == ContentAt(fs, q)
  {
    hide Valid, MkdirAll, WriteLeaves, DropPartial, AttributesLeave, ContentAt, Stays, Parent, PartialPath, MustWrite;
    var p := At(cfg, e);
    if MkdirAll(cfg.proc, fs, Parent(p)).Ok? {
      var made := MkdirAll(cfg.proc, fs, Parent(p)).value;
      MkdirStays(cfg.proc, fs, Parent(p), q);
      StaysKeepsContent(fs, made, q);
      if MustWrite(plan, data) {
        var tmp := temp(made, p);
        WriteLeavesOthers(cfg, e, made, data, tmp, q);
        match WriteLeaves(cfg, e, made, data, tmp, None) {
          case Err(_) =>
          case Ok(written) =>
            StaysKeepsContent(made, written, q);
            DropStays(cfg, e, plan, written, q);
            DropValid(cfg, e, plan, written);
            var dropped := DropPartial(cfg, e, plan, written);
            StaysKeepsContent(written, dropped, q);
            AttributesLeaveOthers(cfg.proc, dropped, e, p, cfg.attrs, q);
            StaysKeepsContent(dropped, AttributesLeave(cfg.proc, dropped, e, p, cfg.attrs), q);
        }
      } else {
        AttributesLeaveOthers(cfg.proc, made, e, p, cfg.attrs, q);
        StaysKeepsContent(made, AttributesLeave(cfg.proc, made, e, p, cfg.attrs), q);
      }
    }
  }

  lemma EntryLeavesOthers(cfg: Config, transfers: bool, e: FileEntry, fs: FS, inbox: seq<Message>, temp: (FS, Path) -> Path, q: Path)
    requires Valid(fs) && ForeignTo(cfg, e, q) && q in fs.names && (transfers ==> e.kind == Regular)
    ensures ContentAt(EntryLeaves(cfg, transfers, e, fs, inbox, temp), q) == ContentAt(fs, q)
  {
    hide Valid, ContentAt, Stays, PartialPath, Prepare, ReadDelta, NewData, Failures.CommitLeaves, LocalLeaves, ForeignTo;
    if !transfers {
      assert q != At(cfg, e) by {
        ForeignIs(cfg, e, q);
      }
      LocalLeavesOthers(cfg, e, fs, q);
      StaysKeepsContent(fs, LocalLeaves(cfg, e, fs), q);
    } else if Prepare(cfg, e, fs).Ok? && inbox != [] && ReadDelta(cfg, e, inbox[0]).Ok? {
      var plan := Prepare(cfg, e, fs).value;
      var rebuilt := NewData(plan, ReadDelta(cfg, e, inbox[0]).value);
      if rebuilt.Ok? && !cfg.ropts.dryRun {
        CommitLeavesOthers(cfg, e, plan, rebuilt.value, fs, temp, q);
      }
    }
  }

  lemma ForeignIs(cfg: Config, e: FileEntry, q: Path)
    requires ForeignTo(cfg, e, q)
    ensures q != At(cfg, e)
  {
  }

  lemma {:induction false} EntriesLeaveOthers(cfg: Config, inbox: seq<Message>, fs: FS, k: nat, temp: (FS, Path) -> Path, q: Path)
    requires Valid(fs) && inbox != [] && inbox[0].FileListMsg? && k <= |inbox[0].list.entries| && Foreign(cfg, inbox[0].list, q) && q in fs.names
    ensures ContentAt(EntriesLeave(cfg, inbox, fs, k, temp), q) == ContentAt(fs, q)
  {
    hide Valid, ContentAt, EntryLeaves, Replay.ReplayAfter, Stays, ForeignTo;
    if k > 0 {
      if Replay.ReplayAfter(cfg, inbox, fs, k - 1).Ok? {
        var tape, e := Replay.ReplayAfter(cfg, inbox, fs, k - 1).value, inbox[0].list.entries[k - 1];
        ReplayStays(cfg, inbox, fs, k - 1, q);
        StaysKeepsContent(fs, tape.st.fs, q);
        assert ForeignTo(cfg, e, q);
        EntryLeavesOthers(cfg, Transfers(inbox[0].list, e), e, tape.st.fs, if tape.read <= |inbox| then inbox[tape.read..] else [], temp, q);
      } else {
        EntriesLeaveOthers(cfg, inbox, fs, k - 1, temp, q);
      }
    }
  }

  // ---- The passes, however they end ----

  lemma LinkToStays(proc: Process, fs: FS, first: Path, m: Path, q: Path)
    requires Valid(fs) && LinkTo(proc, fs, first, m).Ok? && q != m
    ensures Stays(fs, LinkTo(proc, fs, first, m).value, q) && Valid(LinkTo(proc, fs, first, m).value)
  {
    LinkToFacts(proc, fs, first, m);
  }

  lemma MemberLeavesOthers(cfg: Config, first: Path, member: Path, fs: FS, q: Path)
    requires Valid(fs) && q != cfg.dest + member
    ensures Stays(fs, MemberLeaves(cfg, first, member, fs), q) && Valid(MemberLeaves(cfg, first, member, fs))
    ensures LinkMember(cfg, first, member, fs).Ok? ==> LinkMember(cfg, first, member, fs).value == MemberLeaves(cfg, first, member, fs)
  {
    StaysHere(fs, q);
    hide Valid, Stays, MkdirAll, Remove, LinkTo, WorksOn, Parent;
    var f, m := cfg.dest + first, cfg.dest + member;
    if MkdirAll(cfg.proc, fs, Parent(m)).Ok? {
      var made := MkdirAll(cfg.proc, fs, Parent(m)).value;
      MkdirStays(cfg.proc, fs, Parent(m), q);
      if Remove(cfg.proc, made, m).Ok? {
        var gone := Remove(cfg.proc, made, m).value;
        RemoveWorks(cfg.proc, made, m);
        WorkStays(made, gone, m, q);
        StaysTwice(fs, made, gone, q);
        if LinkTo(cfg.proc, gone, f, m).Ok? {
          LinkToStays(cfg.proc, gone, f, m, q);
          StaysTwice(fs, gone, LinkTo(cfg.proc, gone, f, m).value, q);
        }
      }
    }
  }

  predicate OutOf(cfg: Config, g: Group, q: Path) {
    forall n :: 1 <= n < |g| ==> q != cfg.dest + g[n]
  }

  lemma {:induction false} GroupLeavesOthers(cfg: Config, g: Group, k: nat, fs: FS, q: Path)
    requires Valid(fs) && k <= |g| && OutOf(cfg, g, q)
    ensures Stays(fs, GroupLeaves(cfg, g, k, fs), q)
    ensures LinkGroup(cfg, g, k, fs).Ok? ==> Stays(fs, LinkGroup(cfg, g, k, fs).value, q) && Valid(LinkGroup(cfg, g, k, fs).value)
  {
    hide Valid, Stays, LinkMember, MemberLeaves;
    if k <= 1 {
      StaysHere(fs, q);
    } else {
      GroupLeavesOthers(cfg, g, k - 1, fs, q);
      if LinkGroup(cfg, g, k - 1, fs).Ok? {
        var before := LinkGroup(cfg, g, k - 1, fs).value;
        MemberLeavesOthers(cfg, g[0], g[k - 1], before, q);
        StaysTwice(fs, before, MemberLeaves(cfg, g[0], g[k - 1], before), q);
      }
    }
  }

  lemma {:induction false} LinksLeaveOthers(cfg: Config, groups: seq<Group>, k: nat, fs: FS, q: Path)
    requires Valid(fs) && k <= |groups| && forall g :: 0 <= g < |groups| ==> OutOf(cfg, groups[g], q)
    ensures Stays(fs, LinksLeave(cfg, groups, k, fs), q)
    ensures LinkPass(cfg, groups, k, fs).Ok? ==> Stays(fs, LinkPass(cfg, groups, k, fs).value, q)
    ensures LinkPass(cfg, groups, k, fs).Ok? ==> Valid(LinkPass(cfg, groups, k, fs).value)
  {
    hide Valid, Stays, LinkGroup, GroupLeaves, OutOf;
    if k == 0 {
      StaysHere(fs, q);
    } else {
      LinksLeaveOthers(cfg, groups, k - 1, fs, q);
      if LinkPass(cfg, groups, k - 1, fs).Ok? {
        var before, g := LinkPass(cfg, groups, k - 1, fs).value, groups[k - 1];
        GroupLeavesOthers(cfg, g, |g|, before, q);
        StaysTwice(fs, before, GroupLeaves(cfg, g, |g|, before), q);
        if LinkGroup(cfg, g, |g|, before).Ok? {
          StaysTwice(fs, before, LinkGroup(cfg, g, |g|, before).value, q);
        }
      }
    }
  }

  lemma {:induction false} StampsLeaveOthers(cfg: Config, entries: seq<FileEntry>, k: nat, fs: FS, q: Path)
    requires k <= |entries|
    ensures Stays(fs, StampsLeave(cfg, entries, k, fs), q)
    decreases k
  {
    hide Stays, ApplyPlain;
    if k == 0 {
      StaysHere(fs, q);
    } else if entries[k - 1].kind != Directory {
      StampsLeaveOthers(cfg, entries, k - 1, fs, q);
    } else {
      var e := entries[k - 1];
      StaysHere(fs, q);
      if ApplyPlain(fs, e, At(cfg, e), cfg.attrs).Ok? {
        var stamped := ApplyPlain(fs, e, At(cfg, e), cfg.attrs).value;
        PlainStays(fs, e, At(cfg, e), cfg.attrs, q);
        StampsLeaveOthers(cfg, entries, k - 1, stamped, q);
        StaysTwice(fs, stamped, StampsLeave(cfg, entries, k - 1, stamped), q);
      }
    }
  }

  lemma PassesLeaveOthers(cfg: Config, list: FileList, fs: FS, q: Path)
    requires Valid(fs) && Foreign(cfg, list, q)
    ensures Stays(fs, PassesLeave(cfg, list, fs), q)
  {
    forall g | 0 <= g < |list.groups| ensures OutOf(cfg, list.groups[g], q) {
    }
    hide Valid, Stays, LinkPass, LinksLeave, StampsLeave, OutOf, Foreign;
    StaysHere(fs, q);
    LinksLeaveOthers(cfg, list.groups, |list.groups|, fs, q);
    if LinkPass(cfg, list.groups, |list.groups|, fs).Ok? {
      var linked := LinkPass(cfg, list.groups, |list.groups|, fs).value;
      StampsLeaveOthers(cfg, list.entries, |list.entries|, linked, q);
      StaysTwice(fs, linked, StampsLeave(cfg, list.entries, |list.entries|, linked), q);
    }
  }

  /**
   * Whatever the other side sends - any list, well formed or not, any deltas,
   * too little or too much - and however Receiver ends: every path that no
   * entry, partial file or member of the list lies at has the bytes it had.
   */
  lemma ForeignBytesAreKept(cfg: Config, inbox: seq<Message>, fs: FS, temp: (FS, Path) -> Path, q: Path)
    requires Valid(fs) && q in fs.names && (inbox != [] && inbox[0].FileListMsg? ==> Foreign(cfg, inbox[0].list, q))
    ensures ContentAt(ReceiverLeaves(cfg, inbox, fs, temp), q) == ContentAt(fs, q)
  {
    hide Valid, ContentAt, Replay.ReplayAfter, EntriesLeave, PassesLeave, Foreign, Stays;
    if inbox != [] && inbox[0].FileListMsg? {
      var n := |inbox[0].list.entries|;
      EntriesLeaveOthers(cfg, inbox, fs, n, temp, q);
      if Replay.ReplayAfter(cfg, inbox, fs, n).Ok? {
        var mid := Replay.ReplayAfter(cfg, inbox, fs, n).value.st.fs;
        ReplayStays(cfg, inbox, fs, n, q);
        StaysKeepsContent(fs, mid, q);
        PassesLeaveOthers(cfg, inbox[0].list, mid, q);
        StaysKeepsContent(mid, PassesLeave(cfg, inbox[0].list, mid), q);
      }
    }
  }
}
