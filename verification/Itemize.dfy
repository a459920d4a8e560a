/** The change summary (internal/pipeline/itemize.go): which entries are reported, and with what code. */
module Itemize {
  import opened Prelude
  import opened FileSystem
  import opened Entries

  const UNCHANGED := "........."
  const NEW_SUFFIX := "+++++++++"

  /** ownerKnown is OwnershipAvailable for the destination's own files. */
  function AttrLetters(e: FileEntry, meta: Meta, ownerKnown: bool, opts: AttrOptions, modeAndTime: bool, letters: string): (r: string)
    requires |letters| == 9
    ensures |r| == 9
    ensures r[0] == letters[0] && r[1] == letters[1] && r[6..] == letters[6..]
    ensures r == letters <==>
      && !(modeAndTime && opts.times && meta.mtime != e.mtime && letters[2] != 't')
      && !(modeAndTime && opts.perms && Perm(meta.mode) != Perm(e.mode) && letters[3] != 'p')
      && !(opts.owner && ownerKnown && e.ownership && meta.uid != e.uid && letters[4] != 'o')
      && !(opts.group && ownerKnown && e.ownership && meta.gid != e.gid && letters[5] != 'g')
  {
    var a := letters;
    var a := if modeAndTime && opts.times && meta.mtime != e.mtime then a[2 := 't'] else a;
    var a := if modeAndTime && opts.perms && Perm(meta.mode) != Perm(e.mode) then a[3 := 'p'] else a;
    var a := if opts.owner && ownerKnown && e.ownership && meta.uid != e.uid then a[4 := 'o'] else a;
    if opts.group && ownerKnown && e.ownership && meta.gid != e.gid then a[5 := 'g'] else a
  }

  /** None when nothing about the entry is worth reporting. */
  function ItemizeFile(e: FileEntry, was: Option<Inode>, oldSize: int, ownerKnown: bool, contentChanged: bool, opts: AttrOptions): Option<string> {
    match was
    case None => Some(">f" + NEW_SUFFIX)
    case Some(inode) =>
      var sized := if oldSize != e.size then UNCHANGED[1 := 's'] else UNCHANGED;
      var letters := AttrLetters(e, inode.meta, ownerKnown, opts, true, sized);
      if letters == UNCHANGED && !contentChanged then None
      else Some([if contentChanged then '>' else '.', 'f'] + letters)
  }

  function ItemizeDir(e: FileEntry, was: Option<Inode>, ownerKnown: bool, opts: AttrOptions): Option<string> {
    match was
    case None => Some("cd" + NEW_SUFFIX)
    case Some(inode) =>
      var letters := AttrLetters(e, inode.meta, ownerKnown, opts, true, UNCHANGED);
      if letters == UNCHANGED then None else Some(".d" + letters)
  }

  function ItemizeSymlink(e: FileEntry, was: Option<Inode>, ownerKnown: bool, opts: AttrOptions): Option<string> {
    match was
    case None => Some("cL" + NEW_SUFFIX)
    case Some(inode) =>
      var target := if inode.Link? then inode.target else "";
      var marked := if target != e.target then UNCHANGED[0 := 'c'] else UNCHANGED;
      var letters := AttrLetters(e, inode.meta, ownerKnown, opts, false, marked);
      if letters == UNCHANGED then None else Some("cL" + letters)
  }

  const HARD_LINK_CODE := "hf" + NEW_SUFFIX

  /** The lines reportChange writes: none, the path, or code and path, with the target of a symlink. */
  function Report(ropts: ReceiverOptions, code: Option<string>, e: FileEntry): (lines: seq<string>)
    ensures code == None ==> lines == []
  {
    if (!ropts.itemize && !ropts.verbose) || code.None? then []
    else
      var link := if e.kind == Symlinked && e.target != "" then " -> " + e.target else "";
      if ropts.itemize then [code.value + " " + Render(e.path) + link] else [Render(e.path) + link]
  }

  // ---- Silence means agreement ----

  /** The selected attributes of an existing inode are those of the entry, as far as ownership is known. */
  predicate Matches(e: FileEntry, meta: Meta, ownerKnown: bool, opts: AttrOptions) {
    && (opts.times ==> meta.mtime == e.mtime)
    && (opts.perms ==> Perm(meta.mode) == Perm(e.mode))
    && OwnerMatches(e, meta, ownerKnown, opts)
  }

  predicate OwnerMatches(e: FileEntry, meta: Meta, ownerKnown: bool, opts: AttrOptions) {
    ownerKnown && e.ownership ==> (opts.owner ==> meta.uid == e.uid) && (opts.group ==> meta.gid == e.gid)
  }

  /** A file goes unreported exactly when it existed with the same size, bytes and selected attributes. */
  lemma FileSilentIff(e: FileEntry, was: Option<Inode>, oldSize: int, ownerKnown: bool, contentChanged: bool, opts: AttrOptions)
    ensures ItemizeFile(e, was, oldSize, ownerKnown, contentChanged, opts) == None <==>
      was.Some? && oldSize == e.size && !contentChanged && Matches(e, was.value.meta, ownerKnown, opts)
  {
    if was.Some? {
      var sized := if oldSize != e.size then UNCHANGED[1 := 's'] else UNCHANGED;
      var letters := AttrLetters(e, was.value.meta, ownerKnown, opts, true, sized);
      assert letters[1] == sized[1];
    }
  }

  lemma DirSilentIff(e: FileEntry, was: Option<Inode>, ownerKnown: bool, opts: AttrOptions)
    ensures ItemizeDir(e, was, ownerKnown, opts) == None <==>
      was.Some? && Matches(e, was.value.meta, ownerKnown, opts)
  {
  }

  lemma SymlinkSilentIff(e: FileEntry, was: Option<Inode>, ownerKnown: bool, opts: AttrOptions)
    ensures ItemizeSymlink(e, was, ownerKnown, opts) == None <==>
      was.Some? && (if was.value.Link? then was.value.target else "") == e.target && OwnerMatches(e, was.value.meta, ownerKnown, opts)
  {
    if was.Some? {
      var target := if was.value.Link? then was.value.target else "";
      var marked := if target != e.target then UNCHANGED[0 := 'c'] else UNCHANGED;
      var letters := AttrLetters(e, was.value.meta, ownerKnown, opts, false, marked);
      assert letters[0] == marked[0];
    }
  }

  /** The codes the three kinds of entry and hard-link members are given. */
  predicate IsCode(code: string) {
    |code| == 11
  }

  lemma CodesAreCodes(e: FileEntry, was: Option<Inode>, oldSize: int, ownerKnown: bool, contentChanged: bool, opts: AttrOptions)
    ensures var c := ItemizeFile(e, was, oldSize, ownerKnown, contentChanged, opts); c.Some? ==> IsCode(c.value)
    ensures var c := ItemizeDir(e, was, ownerKnown, opts); c.Some? ==> IsCode(c.value)
    ensures var c := ItemizeSymlink(e, was, ownerKnown, opts); c.Some? ==> IsCode(c.value)
    ensures IsCode(HARD_LINK_CODE) && HARD_LINK_CODE == "hf+++++++++"
  {
    assert |NEW_SUFFIX| == 9 && |UNCHANGED| == 9 && NEW_SUFFIX == "+++++++++";
  }

  /**
   * A line is written exactly when lines are asked for and there is something
   * to report, and an itemized line gives back its code and, but for symlinks,
   * the path.
   */
  lemma LinesTell(ropts: ReceiverOptions, code: Option<string>, e: FileEntry, other: Option<string>, f: FileEntry)
    ensures |Report(ropts, code, e)| == if (ropts.itemize || ropts.verbose) && code.Some? then 1 else 0
    ensures ropts.itemize && code.Some? && other.Some? && IsCode(code.value) && IsCode(other.value) && Report(ropts, code, e) == Report(ropts, other, f) ==>
      code == other && (e.kind != Symlinked && f.kind != Symlinked ==> Render(e.path) == Render(f.path))
  {
    if ropts.itemize && code.Some? && other.Some? && IsCode(code.value) && IsCode(other.value) {
      var a, b := Report(ropts, code, e)[0], Report(ropts, other, f)[0];
      var atail := Render(e.path) + if e.kind == Symlinked && e.target != "" then " -> " + e.target else "";
      var btail := Render(f.path) + if f.kind == Symlinked && f.target != "" then " -> " + f.target else "";
      assert a == code.value + " " + atail && b == other.value + " " + btail;
      assert a[..11] == code.value && b[..11] == other.value && a[12..] == atail && b[12..] == btail;
      assert e.kind != Symlinked ==> atail == Render(e.path);
      assert f.kind != Symlinked ==> btail == Render(f.path);
    }
  }

  // ---- What each position says ----

  /** The attribute positions of an existing entry's code: time, permissions, owner, group; the last three are never used. */
  predicate AttributesSaid(code: string, e: FileEntry, meta: Meta, ownerKnown: bool, opts: AttrOptions, modeAndTime: bool) {
    && |code| == 11
    && code[4] == (if modeAndTime && opts.times && meta.mtime != e.mtime then 't' else '.')
    && code[5] == (if modeAndTime && opts.perms && meta.mode % 512 != e.mode % 512 then 'p' else '.')
    && code[6] == (if opts.owner && ownerKnown && e.ownership && meta.uid != e.uid then 'o' else '.')
    && code[7] == (if opts.group && ownerKnown && e.ownership && meta.gid != e.gid then 'g' else '.')
    && code[8] == '.' && code[9] == '.' && code[10] == '.'
  }

  lemma LettersSaid(e: FileEntry, meta: Meta, ownerKnown: bool, opts: AttrOptions, modeAndTime: bool, letters: string, first: char, second: char)
    requires |letters| == 9 && letters[2..] == "......."
    ensures AttributesSaid([first, second] + AttrLetters(e, meta, ownerKnown, opts, modeAndTime, letters), e, meta, ownerKnown, opts, modeAndTime)
  {
    assert letters[2] == letters[2..][0] && letters[3] == letters[2..][1] && letters[4] == letters[2..][2] && letters[5] == letters[2..][3];
    assert letters[6] == letters[2..][4] && letters[7] == letters[2..][5] && letters[8] == letters[2..][6];
  }

  /** A file's code: '>' when its bytes are new, 's' when its size differs, and what its attributes say; all plus signs when it is new. */
  lemma FileCodeSays(e: FileEntry, was: Option<Inode>, oldSize: int, ownerKnown: bool, contentChanged: bool, opts: AttrOptions)
    ensures var code := ItemizeFile(e, was, oldSize, ownerKnown, contentChanged, opts);
      if was.None? then code == Some(">f+++++++++")
      else code.Some? ==>
        && AttributesSaid(code.value, e, was.value.meta, ownerKnown, opts, true)
        && code.value[0] == (if contentChanged then '>' else '.') && code.value[1] == 'f'
        && code.value[2] == '.' && code.value[3] == (if oldSize != e.size then 's' else '.')
  {
    if was.Some? {
      var sized := if oldSize != e.size then UNCHANGED[1 := 's'] else UNCHANGED;
      assert sized[2..] == ".......";
      LettersSaid(e, was.value.meta, ownerKnown, opts, true, sized, if contentChanged then '>' else '.', 'f');
    } else {
      assert ">f" + NEW_SUFFIX == ">f+++++++++";
    }
  }

  lemma DirCodeSays(e: FileEntry, was: Option<Inode>, ownerKnown: bool, opts: AttrOptions)
    ensures var code := ItemizeDir(e, was, ownerKnown, opts);
      if was.None? then code == Some("cd+++++++++")
      else code.Some? ==> AttributesSaid(code.value, e, was.value.meta, ownerKnown, opts, true) && code.value[..4] == ".d.."
  {
    if was.Some? {
      assert UNCHANGED[2..] == ".......";
      LettersSaid(e, was.value.meta, ownerKnown, opts, true, UNCHANGED, '.', 'd');
    } else {
      assert "cd" + NEW_SUFFIX == "cd+++++++++";
    }
  }

  lemma SymlinkCodeSays(e: FileEntry, was: Option<Inode>, ownerKnown: bool, opts: AttrOptions)
    ensures var code := ItemizeSymlink(e, was, ownerKnown, opts);
      if was.None? then code == Some("cL+++++++++")
      else code.Some? ==>
        && AttributesSaid(code.value, e, was.value.meta, ownerKnown, opts, false) && code.value[..2] == "cL"
        && code.value[2] == (if (if was.value.Link? then was.value.target else "") != e.target then 'c' else '.') && code.value[3] == '.'
  {
    if was.Some? {
      var target := if was.value.Link? then was.value.target else "";
      var marked := if target != e.target then UNCHANGED[0 := 'c'] else UNCHANGED;
      assert marked[2..] == ".......";
      LettersSaid(e, was.value.meta, ownerKnown, opts, false, marked, 'c', 'L');
    } else {
      assert "cL" + NEW_SUFFIX == "cL+++++++++";
    }
  }

  /** A line's text: with -i the code and a space, then the path, and for a symlink an arrow and the target. */
  lemma LineText(ropts: ReceiverOptions, code: string, e: FileEntry)
    requires ropts.itemize || ropts.verbose
    ensures var line, from := Report(ropts, Some(code), e)[0], if ropts.itemize then |code| + 1 else 0;
      && |Report(ropts, Some(code), e)| == 1
      && (ropts.itemize ==> code + " " <= line)
      && (e.kind != Symlinked || e.target == "" ==> line[from..] == Render(e.path))
      && (e.kind == Symlinked && e.target != "" ==> line[from..] == Render(e.path) + " -> " + e.target)
  {
    var link := if e.kind == Symlinked && e.target != "" then " -> " + e.target else "";
    assert (code + " " + Render(e.path) + link)[|code| + 1..] == Render(e.path) + link;
    assert (code + " " + Render(e.path) + link)[..|code| + 1] == code + " ";
    assert Render(e.path) + " -> " + e.target == Render(e.path) + (" -> " + e.target);
  }
}
