/** What the text of a filter pattern means, and which texts are refused (internal/sync/filter.go, compilePattern and matches). */
module Patterns {
  import opened Prelude
  import opened FileSystem
  import opened Entries
  import opened Ordering
  import opened Filter

  /** One or more names, none of them empty or with a slash in it. */
  predicate Spelled(names: Path) {
    names != [] && Proper(names)
  }

  /** The text of a pattern: names between slashes, a slash in front to root it, one behind for directories only. */
  function Text(names: Path, rooted: bool, dirOnly: bool): string {
    (if rooted then "/" else "") + Render(names) + if dirOnly then "/" else ""
  }

  // ---- Names and their rendering ----

  lemma {:induction false} RenderEnds(names: Path)
    requires Spelled(names)
    ensures Render(names) != "" && Render(names)[0] != '/' && Render(names)[|Render(names)| - 1] != '/'
    ensures '/' in Render(names) <==> |names| > 1
  {
    assert ProperName(names[0]);
    if |names| > 1 {
      RenderEnds(names[1..]);
      assert Render(names)[|names[0]|] == '/';
    }
  }

  lemma SlashIsContained(s: string)
    ensures Contains(s, "/") <==> '/' in s
  {
    if '/' in s {
      var i :| 0 <= i < |s| && s[i] == '/';
      assert OccursAt(s, "/", i);
    }
    if Contains(s, "/") {
      var i :| 0 <= i <= |s| && OccursAt(s, "/", i);
      assert s[i..i + 1][0] == s[i];
    }
  }

  lemma {:induction false} RenderOfSegments(s: string)
    ensures Render(Segments(s)) == s
    ensures forall i :: 0 <= i < |Segments(s)| ==> '/' !in Segments(s)[i]
  {
    if s != "" {
      var rest := Segments(s[1..]);
      RenderOfSegments(s[1..]);
      assert s == [s[0]] + s[1..];
      if s[0] == '/' {
        assert Segments(s)[1..] == rest;
      } else {
        assert Segments(s)[1..] == rest[1..];
        if |rest| > 1 {
          assert [s[0]] + rest[0] + "/" + Render(rest[1..]) == [s[0]] + (rest[0] + "/" + Render(rest[1..]));
        }
      }
    }
  }

  // ---- What compiles ----

  lemma {:induction false} LaterEmpty(s: string)
    ensures Segments(s)[0] == "" <==> s == "" || s[0] == '/'
    ensures "" in Segments(s)[1..] <==> (s != "" && s[|s| - 1] == '/') || Contains(s, "//")
  {
    if s != "" {
      var rest := Segments(s[1..]);
      LaterEmpty(s[1..]);
      DoubleSlash(s);
      assert rest == [rest[0]] + rest[1..];
      if s[0] == '/' {
        assert Segments(s)[1..] == rest;
      } else {
        assert Segments(s)[1..] == rest[1..];
      }
    } else {
      assert Segments(s)[1..] == [];
    }
  }

  lemma DoubleSlash(s: string)
    requires s != ""
    ensures Contains(s, "//") <==> (|s| > 1 && s[0] == '/' && s[1] == '/') || Contains(s[1..], "//")
  {
    if Contains(s, "//") {
      var i :| 0 <= i <= |s| && OccursAt(s, "//", i);
      if i > 0 {
        assert s[1..][i - 1..i + 1] == s[i..i + 2];
        assert OccursAt(s[1..], "//", i - 1);
      } else {
        assert s[0..2][0] == s[0] && s[0..2][1] == s[1];
      }
    }
    if Contains(s[1..], "//") {
      var i :| 0 <= i <= |s[1..]| && OccursAt(s[1..], "//", i);
      assert s[i + 1..i + 3] == s[1..][i..i + 2];
      assert OccursAt(s, "//", i + 1);
    }
    if |s| > 1 && s[0] == '/' && s[1] == '/' {
      assert s[0..2] == "//";
      assert OccursAt(s, "//", 0);
    }
  }

  /** Dropping a last slash takes a double slash away only where there was one at the end. */
  lemma DoubleSlashBefore(s: string)
    requires s != "" && s[|s| - 1] == '/'
    ensures Contains(s, "//") <==> (|s| > 1 && s[|s| - 2] == '/') || Contains(s[..|s| - 1], "//")
  {
    var t := s[..|s| - 1];
    if Contains(s, "//") {
      var i :| 0 <= i <= |s| && OccursAt(s, "//", i);
      if i + 2 < |s| {
        assert t[i..i + 2] == s[i..i + 2];
        assert OccursAt(t, "//", i);
      } else {
        assert s[i..i + 2][0] == s[i];
      }
    }
    if Contains(t, "//") {
      var i :| 0 <= i <= |t| && OccursAt(t, "//", i);
      assert s[i..i + 2] == t[i..i + 2];
      assert OccursAt(s, "//", i);
    }
    if |s| > 1 && s[|s| - 2] == '/' {
      assert s[|s| - 2..|s|] == "//";
      assert OccursAt(s, "//", |s| - 2);
    }
  }

  /** A pattern is refused exactly when it is empty, a lone slash, or has two slashes in a row. */
  lemma RefusedIff(action: Action, text: string)
    ensures CompilePattern(action, text).Err? <==> text == "" || text == "/" || Contains(text, "//")
  {
    var open := Unslashed(text);
    var bare := Undirected(open);
    hide Segments, Contains;
    if text != "" {
      DoubleSlash(text);
    }
    if open != "" && open[|open| - 1] == '/' {
      DoubleSlashBefore(open);
    }
    var segs := Segments(bare);
    LaterEmpty(bare);
    assert segs == [segs[0]] + segs[1..];
    NoDoubleInShort(text);
  }

  lemma NoDoubleInShort(s: string)
    ensures |s| < 2 ==> !Contains(s, "//")
  {
  }

  /** Every other text spells names. */
  lemma EveryPatternIsSpelled(action: Action, text: string) returns (names: Path, rooted: bool, dirOnly: bool)
    requires CompilePattern(action, text).Ok?
    ensures Spelled(names) && text == Text(names, rooted, dirOnly)
  {
    var open := Unslashed(text);
    var bare := Undirected(open);
    names, rooted, dirOnly := Segments(bare), open != text, bare != open;
    RenderOfSegments(bare);
    forall i | 0 <= i < |names| ensures ProperName(names[i]) {
      assert names[i] in names;
    }
  }

  // ---- What it matches ----

  /** From the root: the whole path is cut into runs that the pattern's names take one after the other. */
  ghost predicate FitsWhole(glob: Glob, names: Path, path: Path) {
    exists cuts :: Aligns(glob, names, path, 0, 0, cuts)
  }

  /**
   * The meaning of a pattern's text. With a slash in front or inside, or with
   * two stars in it, it is matched against the whole path from the root; a
   * plain name is matched against the last component alone. A slash at the
   * end adds that the entry is a directory, and nothing else.
   */
  lemma TextMeans(glob: Glob, action: Action, names: Path, rooted: bool, dirOnly: bool, path: Path, isDir: bool)
    requires Spelled(names) && Spelled(path)
    ensures CompilePattern(action, Text(names, rooted, dirOnly)).Ok?
    ensures CompilePattern(action, Text(names, rooted, dirOnly)).value.action == action
    ensures Matches(glob, CompilePattern(action, Text(names, rooted, dirOnly)).value, Render(path), isDir) <==>
      && (dirOnly ==> isDir)
      && if rooted || |names| > 1 || Contains(names[0], STARS) then FitsWhole(glob, names, path) else glob(names[0], path[|path| - 1])
  {
    var bare := Render(names);
    RenderEnds(names);
    Markers(names, rooted, dirOnly);
    SlashIsContained(bare);
    SegmentsOfRender(names);
    SegmentsOfRender(path);
    forall i | 0 <= i < |names| ensures names[i] != "" {
      assert ProperName(names[i]);
    }
    MatchIffAssignment(glob, names, path);
    if |names| == 1 && !Contains(names[0], STARS) {
      assert OccursAt(STARS, STARS, 0);
      assert names == [names[0]];
      hide MatchesAnywhere, MatchSegments;
      AnywhereOneSegment(glob, names[0], path);
    }
    hide MatchSegments, Segments, Render, MatchesAnywhere;
  }

  lemma Markers(names: Path, rooted: bool, dirOnly: bool)
    requires Spelled(names)
    ensures var text := Text(names, rooted, dirOnly);
      && (Unslashed(text) != text <==> rooted)
      && Undirected(Unslashed(text)) == Render(names)
      && (Undirected(Unslashed(text)) != Unslashed(text) <==> dirOnly)
  {
    RenderEnds(names);
    hide Render;
    var text, bare := Text(names, rooted, dirOnly), Render(names);
    var open := bare + if dirOnly then "/" else "";
    assert Unslashed(text) == open by {
      if rooted {
        assert text == "/" + open;
      } else {
        assert text == open;
      }
    }
    assert dirOnly ==> open[..|open| - 1] == bare;
  }
}
