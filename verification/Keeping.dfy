/** What exactly is left of a file whose write failed (internal/pipeline/partial.go, abandonOrKeep). */
module Keeping {
  import opened Prelude
  import opened FileSystem
  import opened Entries
  import opened Receiver
  import opened TempWrite
  import opened Effects
  import opened Directories

  // ---- Moving a file to another name ----

  function Moved(fs: FS, tmp: Path, p: Path): FS
    requires tmp in fs.names
  {
    fs.(names := (fs.names - {tmp})[p := fs.names[tmp]])
  }

  lemma MovedKinds(fs: FS, tmp: Path, p: Path)
    requires IsFile(fs, tmp) && !IsDir(fs, p)
    ensures forall q :: IsDir(Moved(fs, tmp, p), q) == IsDir(fs, q)
  {
  }

  lemma MovedIsValid(fs: FS, tmp: Path, p: Path)
    requires Valid(fs) && IsFile(fs, tmp) && p != [] && tmp != [] && IsDir(fs, Parent(p)) && !IsDir(fs, p)
    ensures Valid(Moved(fs, tmp, p))
    ensures forall q :: IsDir(Moved(fs, tmp, p), q) == IsDir(fs, q)
  {
    MovedKinds(fs, tmp, p);
    var moved := Moved(fs, tmp, p);
    hide IsFile, IsDir;
    forall q | q in moved.names && q != [] ensures IsDir(moved, Parent(q)) {
      assert IsDir(fs, Parent(q));
    }
    forall a, b | a in moved.names && b in moved.names && moved.names[a] == moved.names[b] && IsDir(moved, a) ensures a == b {
      assert a != p && IsDir(fs, a);
      if b == p {
        TwoNames(fs, a, tmp);
      } else {
        TwoNames(fs, a, b);
      }
    }
  }

  /** A directory's inode has one name, and a file is no directory. */
  lemma TwoNames(fs: FS, a: Path, b: Path)
    requires Valid(fs) && IsDir(fs, a) && a in fs.names && b in fs.names && fs.names[a] == fs.names[b]
    ensures a == b
  {
  }

  /** Renaming moves one name and stamps two directories. */
  lemma RenameIs(proc: Process, fs: FS, tmp: Path, p: Path)
    requires Valid(fs) && IsFile(fs, tmp) && RenameOnto(proc, fs, tmp, p).Ok? && tmp != []
    ensures Valid(RenameOnto(proc, fs, tmp, p).value)
    ensures RenameOnto(proc, fs, tmp, p).value.names == (fs.names - {tmp})[p := fs.names[tmp]]
    ensures forall q :: ShapeAt(RenameOnto(proc, fs, tmp, p).value, q) == ShapeAt(Moved(fs, tmp, p), q)
    ensures forall q :: q != Parent(p) && q != Parent(tmp) ==> Lookup(RenameOnto(proc, fs, tmp, p).value, q) == Lookup(Moved(fs, tmp, p), q)
  {
    var moved := Moved(fs, tmp, p);
    MovedIsValid(fs, tmp, p);
    assert IsDir(fs, Parent(tmp));
    hide Valid, Bump;
    BumpFacts(proc, moved, Parent(p));
    var once := Bump(proc, moved, Parent(p));
    if Parent(tmp) != Parent(p) {
      assert IsDir(once, Parent(tmp));
      BumpFacts(proc, once, Parent(tmp));
    }
  }

  // ---- The two outcomes ----

  /** The partial file is asked for, its directory exists or can be made, and no directory lies in its place. */
  ghost predicate Keepable(cfg: Config, e: FileEntry, fs: FS) {
    && cfg.ropts.KeepPartial()
    && (cfg.ropts.partialDir.Some? ==> Makeable(fs, Parent(KeepAt(cfg, e))))
    && !IsDir(fs, KeepAt(cfg, e))
  }

  /** A name is left alone: inode, kind and content; or it is new, and a directory above p. */
  predicate AloneBut(fs: FS, after: FS, p: Path, q: Path) {
    && (q in fs.names ==> q in after.names && after.names[q] == fs.names[q] && ShapeAt(after, q) == ShapeAt(fs, q))
    && (q in after.names && q !in fs.names ==> q < p && IsDir(after, q))
  }

  /** tmp was moved to `place`; nothing else changed but directories above the two. */
  ghost predicate Kept(fs: FS, after: FS, tmp: Path, place: Path) {
    && place in after.names && ShapeAt(after, place) == ShapeAt(fs, tmp)
    && (tmp != place ==> tmp !in after.names)
    && (forall q :: q != place && q != tmp ==> AloneBut(fs, after, place, q))
  }

  /** tmp is gone; nothing else changed but the time of its directory. */
  ghost predicate Dropped(fs: FS, after: FS, tmp: Path) {
    && after.names == fs.names - {tmp}
    && (forall q :: q != tmp ==> ShapeAt(after, q) == ShapeAt(fs, q))
    && (forall q :: q != tmp && q != Parent(tmp) ==> Lookup(after, q) == Lookup(fs, q))
  }

  lemma RemoveDrops(proc: Process, fs: FS, tmp: Path)
    requires Valid(fs) && IsFile(fs, tmp) && tmp != []
    ensures Dropped(fs, RemoveQuietly(proc, fs, tmp), tmp) && Valid(RemoveQuietly(proc, fs, tmp))
  {
    UnnameFacts(fs, tmp);
    BumpFacts(proc, fs.(names := fs.names - {tmp}), Parent(tmp));
  }

  lemma RenameKeeps(proc: Process, fs: FS, made: FS, tmp: Path, place: Path)
    requires Valid(fs) && Valid(made) && IsFile(fs, tmp) && IsFile(made, tmp) && tmp != [] && ShapeAt(made, tmp) == ShapeAt(fs, tmp)
    requires RenameOnto(proc, made, tmp, place).Ok?
    requires forall q :: q != place && q != tmp ==> AloneBut(fs, made, place, q)
    ensures Kept(fs, RenameOnto(proc, made, tmp, place).value, tmp, place) && Valid(RenameOnto(proc, made, tmp, place).value)
  {
    RenameIs(proc, made, tmp, place);
    var after := RenameOnto(proc, made, tmp, place).value;
    hide RenameOnto, Valid;
    forall q | q != place && q != tmp ensures AloneBut(fs, after, place, q) {
      assert AloneBut(fs, made, place, q);
      assert ShapeAt(after, q) == ShapeAt(Moved(made, tmp, place), q) == ShapeAt(made, q);
      SameKind(made, after, q);
    }
  }

  lemma SameKind(fs: FS, after: FS, q: Path)
    requires ShapeAt(after, q) == ShapeAt(fs, q)
    ensures IsDir(after, q) == IsDir(fs, q) && IsFile(after, q) == IsFile(fs, q)
  {
  }

  lemma MkdirLeavesAlone(proc: Process, fs: FS, place: Path, tmp: Path)
    requires Valid(fs) && place != [] && IsFile(fs, tmp) && MkdirAll(proc, fs, Parent(place)).Ok?
    ensures var made := MkdirAll(proc, fs, Parent(place)).value;
      && Valid(made) && IsDir(made, Parent(place))
      && IsFile(made, tmp) && ShapeAt(made, tmp) == ShapeAt(fs, tmp) && IsDir(made, place) == IsDir(fs, place)
      && (forall q :: q != place && q != tmp ==> AloneBut(fs, made, place, q))
  {
    assert Parent(place) < place;
    MkdirAllWorks(proc, fs, Parent(place), place);
    var made := MkdirAll(proc, fs, Parent(place)).value;
    hide MkdirAll;
    assert !(place <= Parent(place));
    assert Lookup(made, place) == Lookup(fs, place);
    if tmp != place {
      assert tmp in fs.names && ShapeAt(made, tmp) == ShapeAt(fs, tmp);
    }
    SameKind(fs, made, tmp);
  }

  lemma PlaceIsNotRoot(cfg: Config, e: FileEntry)
    requires e.path != []
    ensures At(cfg, e) != [] && KeepAt(cfg, e) != []
  {
  }

  /**
   * What abandoning a write leaves, exactly: the bytes written so far at the
   * place asked for, if they can be put there, and otherwise no trace.
   */
  lemma AbandonedExactly(cfg: Config, e: FileEntry, fs: FS, tmp: Path)
    requires Valid(fs) && IsFile(fs, tmp) && tmp != [] && e.path != [] && IsDir(fs, Parent(At(cfg, e)))
    ensures var after := AbandonOrKeep(cfg, e, fs, tmp, true);
      Valid(after) && if Keepable(cfg, e, fs) then Kept(fs, after, tmp, KeepAt(cfg, e)) else Dropped(fs, after, tmp)
  {
    hide Kept, Dropped, Valid, RenameOnto, RemoveQuietly, MkdirAll, Makeable;
    PlaceIsNotRoot(cfg, e);
    RemoveDrops(cfg.proc, fs, tmp);
    if cfg.ropts.KeepPartial() {
      if cfg.ropts.partialDir.None? {
        KeptBeside(cfg, e, fs, tmp);
      } else {
        KeptElsewhere(cfg, e, fs, tmp);
      }
    }
  }

  lemma KeptBeside(cfg: Config, e: FileEntry, fs: FS, tmp: Path)
    requires cfg.ropts.keepPartial && cfg.ropts.partialDir.None?
    requires Valid(fs) && IsFile(fs, tmp) && tmp != [] && At(cfg, e) != [] && IsDir(fs, Parent(At(cfg, e)))
    ensures var after, place := AbandonOrKeep(cfg, e, fs, tmp, true), KeepAt(cfg, e);
      if IsDir(fs, place) then after == RemoveQuietly(cfg.proc, fs, tmp) else Valid(after) && Kept(fs, after, tmp, place)
  {
    hide Kept, Valid, RemoveQuietly;
    if !IsDir(fs, At(cfg, e)) {
      assert RenameOnto(cfg.proc, fs, tmp, At(cfg, e)).Ok?;
      assert forall q :: AloneBut(fs, fs, At(cfg, e), q);
      RenameKeeps(cfg.proc, fs, fs, tmp, At(cfg, e));
    }
  }

  lemma KeptElsewhere(cfg: Config, e: FileEntry, fs: FS, tmp: Path)
    requires cfg.ropts.partialDir.Some?
    requires Valid(fs) && IsFile(fs, tmp) && tmp != [] && KeepAt(cfg, e) != []
    ensures var after, place := AbandonOrKeep(cfg, e, fs, tmp, true), KeepAt(cfg, e);
      if IsDir(fs, place) || !Makeable(fs, Parent(place)) then after == RemoveQuietly(cfg.proc, fs, tmp) else Valid(after) && Kept(fs, after, tmp, place)
  {
    hide Kept, Valid, RemoveQuietly, Makeable, MkdirAll, PartialPath;
    var place := KeepAt(cfg, e);
    MkdirAllIff(cfg.proc, fs, Parent(place));
    if Makeable(fs, Parent(place)) {
      MkdirLeavesAlone(cfg.proc, fs, place, tmp);
      var made := MkdirAll(cfg.proc, fs, Parent(place)).value;
      if IsDir(fs, place) {
        NothingMade(cfg.proc, fs, place);
      } else {
        assert RenameOnto(cfg.proc, made, tmp, place).Ok?;
        RenameKeeps(cfg.proc, fs, made, tmp, place);
      }
    }
  }

  lemma NothingMade(proc: Process, fs: FS, p: Path)
    requires Valid(fs) && IsDir(fs, p) && p != []
    ensures MkdirAll(proc, fs, Parent(p)) == Ok(fs)
  {
  }

  // ---- Seen from before the temporary file was made ----

  /** Keepable, where tmp is still to be made: it must not come to lie above the place itself. */
  ghost predicate KeepableBeside(cfg: Config, e: FileEntry, fs: FS, tmp: Path) {
    && cfg.ropts.KeepPartial()
    && (cfg.ropts.partialDir.Some? ==> Makeable(fs, Parent(KeepAt(cfg, e))) && !(tmp <= Parent(KeepAt(cfg, e))))
    && !IsDir(fs, KeepAt(cfg, e))
  }

  /** `place` holds exactly these bytes, tmp is gone, and nothing else changed but directories above the two. */
  ghost predicate PartialKept(fs: FS, after: FS, tmp: Path, place: Path, bytes: Bytes) {
    && ContentAt(after, place) == Some(bytes)
    && (tmp != place ==> tmp !in after.names)
    && (forall q :: q != place && q != tmp ==> AloneBut(fs, after, place, q))
  }

  /** Every name is the one it was, for what it was. */
  ghost predicate NoTrace(fs: FS, after: FS) {
    after.names == fs.names && forall q :: ShapeAt(after, q) == ShapeAt(fs, q)
  }

  /** The temporary file is the only thing new. */
  lemma FilledIs(proc: Process, fs: FS, p: Path, tmp: Path, bytes: Bytes)
    requires Valid(fs) && OpenTemp(proc, fs, p, tmp).Ok?
    ensures var filled := Fill(OpenTemp(proc, fs, p, tmp).value, tmp, bytes);
      && Valid(filled) && IsFile(filled, tmp) && ContentAt(filled, tmp) == Some(bytes)
      && tmp !in fs.names && filled.names == fs.names[tmp := fs.next]
      && (forall q :: q != tmp ==> ShapeAt(filled, q) == ShapeAt(fs, q))
  {
    hide Create, Valid, Fill;
    var inode := File(Fresh(proc, fs, FILE_MODE), []);
    var begun := Create(proc, fs, tmp, inode);
    assert OpenTemp(proc, fs, p, tmp).value == begun;
    CreateFacts(proc, fs, tmp, inode);
    assert IsFile(begun, tmp);
    FilledFacts(begun, tmp, bytes);
    FilledValid(begun, tmp, bytes);
    forall q | q != tmp ensures ShapeAt(Fill(begun, tmp, bytes), q) == ShapeAt(fs, q) {
      FreshIsAlone(fs, begun, tmp, q);
    }
  }

  lemma FreshIsAlone(fs: FS, after: FS, tmp: Path, q: Path)
    requires Valid(fs) && after.names == fs.names[tmp := fs.next] && q != tmp
    ensures !Shares(after, q, tmp)
  {
  }

  lemma KeepableBefore(cfg: Config, e: FileEntry, fs: FS, filled: FS, tmp: Path)
    requires tmp !in fs.names && filled.names == fs.names[tmp := fs.next] && IsFile(filled, tmp)
    requires forall q :: q != tmp ==> ShapeAt(filled, q) == ShapeAt(fs, q)
    ensures Keepable(cfg, e, filled) <==> KeepableBeside(cfg, e, fs, tmp)
  {
    forall q ensures IsDir(filled, q) == IsDir(fs, q) {
      if q != tmp {
        SameKind(fs, filled, q);
      }
    }
    hide KeepAt;
    var d := Parent(KeepAt(cfg, e));
    assert Makeable(filled, d) <==> Makeable(fs, d) && !(tmp <= d) by {
      if Makeable(filled, d) {
        forall a | a <= d && a in fs.names ensures IsDir(fs, a) {
          assert a in filled.names;
        }
      }
    }
  }

  lemma ContentByShape(fs: FS, p: Path, after: FS, q: Path)
    requires ShapeAt(after, q) == ShapeAt(fs, p)
    ensures ContentAt(after, q) == ContentAt(fs, p)
  {
  }

  /** A write that failed with these bytes written. */
  lemma FailedWriteIs(cfg: Config, e: FileEntry, fs: FS, tmp: Path, bytes: Bytes)
    requires Valid(fs) && e.path != [] && OpenTemp(cfg.proc, fs, At(cfg, e), tmp).Ok?
    ensures var left := AbandonOrKeep(cfg, e, Fill(OpenTemp(cfg.proc, fs, At(cfg, e), tmp).value, tmp, bytes), tmp, true);
      if KeepableBeside(cfg, e, fs, tmp) then PartialKept(fs, left, tmp, KeepAt(cfg, e), bytes) else NoTrace(fs, left)
  {
    var filled := Fill(OpenTemp(cfg.proc, fs, At(cfg, e), tmp).value, tmp, bytes);
    var left, place := AbandonOrKeep(cfg, e, filled, tmp, true), KeepAt(cfg, e);
    FilledIs(cfg.proc, fs, At(cfg, e), tmp, bytes);
    KeepableBefore(cfg, e, fs, filled, tmp);
    TempIsAside(cfg, e, fs, filled, tmp);
    hide OpenTemp, Fill, AbandonOrKeep, Keepable, KeepableBeside, Valid, KeepAt, Kept, Dropped, PartialKept, NoTrace;
    AbandonedExactly(cfg, e, filled, tmp);
    if Keepable(cfg, e, filled) {
      KeptBefore(fs, filled, left, tmp, place, bytes);
    } else {
      DroppedBefore(fs, filled, left, tmp);
    }
  }

  lemma TempIsAside(cfg: Config, e: FileEntry, fs: FS, filled: FS, tmp: Path)
    requires OpenTemp(cfg.proc, fs, At(cfg, e), tmp).Ok? && forall q :: q != tmp ==> ShapeAt(filled, q) == ShapeAt(fs, q)
    ensures IsDir(filled, Parent(At(cfg, e))) && tmp != []
  {
    assert Parent(At(cfg, e)) != tmp;
    SameKind(fs, filled, Parent(At(cfg, e)));
  }

  lemma KeptBefore(fs: FS, filled: FS, left: FS, tmp: Path, place: Path, bytes: Bytes)
    requires Kept(filled, left, tmp, place) && ContentAt(filled, tmp) == Some(bytes)
    requires tmp !in fs.names && filled.names == fs.names[tmp := fs.next] && forall q :: q != tmp ==> ShapeAt(filled, q) == ShapeAt(fs, q)
    ensures PartialKept(fs, left, tmp, place, bytes)
  {
    ContentByShape(filled, tmp, left, place);
    forall q | q != place && q != tmp ensures AloneBut(fs, left, place, q) {
      assert AloneBut(filled, left, place, q) && ShapeAt(filled, q) == ShapeAt(fs, q);
    }
  }

  lemma DroppedBefore(fs: FS, filled: FS, left: FS, tmp: Path)
    requires Dropped(filled, left, tmp)
    requires tmp !in fs.names && filled.names == fs.names[tmp := fs.next] && forall q :: q != tmp ==> ShapeAt(filled, q) == ShapeAt(fs, q)
    ensures NoTrace(fs, left)
  {
    assert fs.names[tmp := fs.next] - {tmp} == fs.names;
    forall q ensures ShapeAt(left, q) == ShapeAt(fs, q) {
      if q == tmp {
        Unnamed(fs, left, q);
      }
    }
  }

  lemma Unnamed(fs: FS, after: FS, q: Path)
    requires q !in fs.names && q !in after.names
    ensures ShapeAt(after, q) == ShapeAt(fs, q)
  {
  }
}
