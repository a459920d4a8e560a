/**
 * Include and exclude rules (internal/sync/filter.go). path.Match on one
 * segment is the predicate `glob`, false also where path.Match returns an error.
 */
module Filter {
  import opened Prelude
  import opened FileSystem
  import opened Entries
  import opened Ordering

  type Glob = (string, string) -> bool

  datatype Action = Include | Exclude

  datatype Rule = Rule(action: Action, pattern: string, anchored: bool, dirOnly: bool)

  const STARS := "**"

  // ---- Matching segments ----

  /** "**" takes any number of segments, every other segment of the pattern exactly one. */
  predicate MatchSegments(glob: Glob, pat: seq<string>, segs: seq<string>)
    decreases |pat| + |segs|
  {
    if pat == [] then segs == []
    else if pat[0] == STARS then
      MatchSegments(glob, pat[1..], segs) || (segs != [] && MatchSegments(glob, pat, segs[1..]))
    else segs != [] && glob(pat[0], segs[0]) && MatchSegments(glob, pat[1..], segs[1..])
  }

  /** Segment i of the pattern takes the path's segments from a up to b. */
  predicate Takes(glob: Glob, pat: seq<string>, segs: seq<string>, i: nat, a: nat, b: nat) {
    i < |pat| && a <= b <= |segs| && (pat[i] != STARS ==> b == a + 1 && glob(pat[i], segs[a]))
  }

  /** An assignment: cut j is where the run of the pattern's segment i + j begins. */
  predicate Aligns(glob: Glob, pat: seq<string>, segs: seq<string>, i: nat, p: nat, cuts: seq<nat>) {
    && i <= |pat| && |cuts| == |pat| - i + 1
    && cuts[0] == p && cuts[|pat| - i] == |segs|
    && forall j :: 0 <= j < |pat| - i ==> Takes(glob, pat, segs, i + j, cuts[j], cuts[j + 1])
  }

  lemma {:induction false} MatchGivesAssignment(glob: Glob, pat: seq<string>, segs: seq<string>, i: nat, p: nat) returns (cuts: seq<nat>)
    requires i <= |pat| && p <= |segs| && MatchSegments(glob, pat[i..], segs[p..])
    ensures Aligns(glob, pat, segs, i, p, cuts)
    decreases |pat| - i + |segs| - p
  {
    if i == |pat| {
      cuts := [p];
    } else {
      assert pat[i..][1..] == pat[i + 1..] && pat[i..][0] == pat[i];
      if pat[i] == STARS && MatchSegments(glob, pat[i + 1..], segs[p..]) {
        var rest := MatchGivesAssignment(glob, pat, segs, i + 1, p);
        cuts := Prepend(glob, pat, segs, i, p, p, rest);
      } else {
        assert segs[p..][1..] == segs[p + 1..] && segs[p..][0] == segs[p];
        if pat[i] == STARS {
          var rest := MatchGivesAssignment(glob, pat, segs, i, p + 1);
          cuts := rest[0 := p];
          assert Takes(glob, pat, segs, i, p + 1, rest[1]);
          forall j | 0 <= j < |pat| - i ensures Takes(glob, pat, segs, i + j, cuts[j], cuts[j + 1]) {
            assert Takes(glob, pat, segs, i + j, rest[j], rest[j + 1]);
          }
        } else {
          var rest := MatchGivesAssignment(glob, pat, segs, i + 1, p + 1);
          cuts := Prepend(glob, pat, segs, i, p, p + 1, rest);
        }
      }
    }
  }

  lemma Prepend(glob: Glob, pat: seq<string>, segs: seq<string>, i: nat, p: nat, q: nat, rest: seq<nat>) returns (cuts: seq<nat>)
    requires Takes(glob, pat, segs, i, p, q) && Aligns(glob, pat, segs, i + 1, q, rest)
    ensures Aligns(glob, pat, segs, i, p, cuts)
  {
    cuts := [p] + rest;
    forall j | 0 <= j < |pat| - i ensures Takes(glob, pat, segs, i + j, cuts[j], cuts[j + 1]) {
      if j > 0 {
        assert Takes(glob, pat, segs, i + 1 + (j - 1), rest[j - 1], rest[j]);
      }
    }
  }

  /** Stars from p to q, then a match. */
  lemma {:induction false} StarsReach(glob: Glob, pat: seq<string>, segs: seq<string>, i: nat, p: nat, q: nat)
    requires i < |pat| && pat[i] == STARS && p <= q <= |segs| && MatchSegments(glob, pat[i + 1..], segs[q..])
    ensures MatchSegments(glob, pat[i..], segs[p..])
    decreases q - p
  {
    assert pat[i..][1..] == pat[i + 1..] && pat[i..][0] == pat[i];
    if p < q {
      StarsReach(glob, pat, segs, i, p + 1, q);
      assert segs[p..][1..] == segs[p + 1..];
    }
  }

  lemma {:induction false} AssignmentGivesMatch(glob: Glob, pat: seq<string>, segs: seq<string>, i: nat, p: nat, cuts: seq<nat>)
    requires p <= |segs| && Aligns(glob, pat, segs, i, p, cuts)
    ensures MatchSegments(glob, pat[i..], segs[p..])
    decreases |pat| - i
  {
    if i < |pat| {
      var q := cuts[1];
      assert Takes(glob, pat, segs, i + 0, cuts[0], cuts[1]);
      assert pat[i..][1..] == pat[i + 1..] && pat[i..][0] == pat[i];
      forall j | 0 <= j < |pat| - (i + 1) ensures Takes(glob, pat, segs, i + 1 + j, cuts[1..][j], cuts[1..][j + 1]) {
        assert Takes(glob, pat, segs, i + (j + 1), cuts[j + 1], cuts[j + 2]);
      }
      AssignmentGivesMatch(glob, pat, segs, i + 1, q, cuts[1..]);
      if pat[i] == STARS {
        StarsReach(glob, pat, segs, i, p, q);
      } else {
        assert segs[p..][1..] == segs[p + 1..] && segs[p..][0] == segs[p];
      }
    }
  }

  /** A pattern matches exactly when runs of segments can be assigned to its stars so that everything aligns. */
  lemma MatchIffAssignment(glob: Glob, pat: seq<string>, segs: seq<string>)
    ensures MatchSegments(glob, pat, segs) <==> exists cuts :: Aligns(glob, pat, segs, 0, 0, cuts)
  {
    assert pat[0..] == pat && segs[0..] == segs;
    if MatchSegments(glob, pat, segs) {
      var cuts := MatchGivesAssignment(glob, pat, segs, 0, 0);
    }
    if exists cuts :: Aligns(glob, pat, segs, 0, 0, cuts) {
      var cuts :| Aligns(glob, pat, segs, 0, 0, cuts);
      AssignmentGivesMatch(glob, pat, segs, 0, 0, cuts);
    }
  }

  // ---- One rule ----

  predicate MatchesAnywhere(glob: Glob, pat: seq<string>, segs: seq<string>) {
    exists start :: 0 <= start <= |segs| && MatchSegments(glob, pat, segs[start..])
  }

  /** Rule.matches. */
  predicate Matches(glob: Glob, rule: Rule, path: string, isDir: bool) {
    if rule.dirOnly && !isDir then false
    else if rule.anchored then MatchSegments(glob, Segments(rule.pattern), Segments(path))
    else MatchesAnywhere(glob, Segments(rule.pattern), Segments(path))
  }

  method MatchesRule(glob: Glob, rule: Rule, path: string, isDir: bool) returns (b: bool)
    ensures b == Matches(glob, rule, path, isDir)
  {
    if rule.dirOnly && !isDir {
      return false;
    }
    var pat, segs := Segments(rule.pattern), Segments(path);
    if rule.anchored {
      return MatchSegments(glob, pat, segs);
    }
    for start := 0 to |segs| + 1
      invariant forall n :: 0 <= n < start ==> !MatchSegments(glob, pat, segs[n..])
    {
      if MatchSegments(glob, pat, segs[start..]) {
        return true;
      }
    }
    return false;
  }

  /** Matching at any depth is matching from the root with stars in front. */
  lemma {:induction false} AnywhereIsStarsInFront(glob: Glob, pat: seq<string>, segs: seq<string>)
    ensures MatchesAnywhere(glob, pat, segs) <==> MatchSegments(glob, [STARS] + pat, segs)
    decreases |segs|
  {
    var starred := [STARS] + pat;
    assert starred[1..] == pat && segs[0..] == segs;
    if segs != [] {
      AnywhereIsStarsInFront(glob, pat, segs[1..]);
      if MatchesAnywhere(glob, pat, segs) {
        var start :| 0 <= start <= |segs| && MatchSegments(glob, pat, segs[start..]);
        if start > 0 {
          assert segs[1..][start - 1..] == segs[start..];
        }
      }
      if MatchesAnywhere(glob, pat, segs[1..]) {
        var start :| 0 <= start <= |segs[1..]| && MatchSegments(glob, pat, segs[1..][start..]);
        assert segs[1..][start..] == segs[start + 1..];
      }
    }
  }

  // ---- Compiling ----

  predicate OccursAt(s: string, part: string, i: nat) {
    i + |part| <= |s| && s[i..i + |part|] == part
  }

  predicate Contains(s: string, part: string) {
    exists i :: 0 <= i <= |s| && OccursAt(s, part, i)
  }

  function Unslashed(pattern: string): string {
    if pattern != "" && pattern[0] == '/' then pattern[1..] else pattern
  }

  function Undirected(pattern: string): string {
    if pattern != "" && pattern[|pattern| - 1] == '/' then pattern[..|pattern| - 1] else pattern
  }

  datatype CompileError = EmptySegment

  /** compilePattern. */
  function CompilePattern(action: Action, pattern: string): Result<Rule, CompileError> {
    var open := Unslashed(pattern);
    var bare := Undirected(open);
    if "" in Segments(bare) then Err(EmptySegment)
    else Ok(Rule(action, bare, open != pattern || Contains(bare, "/") || Contains(bare, STARS), bare != open))
  }

  method Compile(action: Action, pattern: string) returns (r: Result<Rule, CompileError>)
    ensures r == CompilePattern(action, pattern)
  {
    var leadingSlash := pattern != "" && pattern[0] == '/';
    var bare := if leadingSlash then pattern[1..] else pattern;
    var dirOnly := bare != "" && bare[|bare| - 1] == '/';
    if dirOnly {
      bare := bare[..|bare| - 1];
    }
    var segs := Segments(bare);
    for i := 0 to |segs|
      invariant "" !in segs[..i]
    {
      if segs[i] == "" {
        return Err(EmptySegment);
      }
      assert segs[..i + 1] == segs[..i] + [segs[i]];
    }
    assert segs[..|segs|] == segs;
    assert leadingSlash <==> Unslashed(pattern) != pattern;
    return Ok(Rule(action, bare, leadingSlash || Contains(bare, "/") || Contains(bare, STARS), dirOnly));
  }

  lemma {:induction false} SlashlessIsOneSegment(s: string)
    requires !Contains(s, "/")
    ensures Segments(s) == [s]
  {
    if '/' in s {
      var i :| 0 <= i < |s| && s[i] == '/';
      assert OccursAt(s, "/", i);
    }
    NameIsOneSegment(s);
  }

  lemma {:induction false} OneSegmentMatch(glob: Glob, name: string, segs: seq<string>)
    requires name != STARS
    ensures MatchSegments(glob, [name], segs) <==> |segs| == 1 && glob(name, segs[0])
  {
    if segs != [] {
      assert MatchSegments(glob, [], segs[1..]) <==> segs[1..] == [];
    }
  }

  /** One segment without stars matches a path of one component, so at any depth only the last. */
  lemma AnywhereOneSegment(glob: Glob, name: string, segs: seq<string>)
    requires name != STARS && segs != []
    ensures MatchesAnywhere(glob, [name], segs) <==> glob(name, segs[|segs| - 1])
  {
    hide MatchSegments;
    forall start | 0 <= start <= |segs|
      ensures MatchSegments(glob, [name], segs[start..]) <==> start == |segs| - 1 && glob(name, segs[start])
    {
      OneSegmentMatch(glob, name, segs[start..]);
    }
  }

  /** A pattern that compiles unanchored looks at the last component of a path and nothing else. */
  lemma UnanchoredMatchesLastName(glob: Glob, action: Action, pattern: string, path: string, isDir: bool)
    requires CompilePattern(action, pattern).Ok? && !CompilePattern(action, pattern).value.anchored
    ensures var rule, segs := CompilePattern(action, pattern).value, Segments(path);
      Matches(glob, rule, path, isDir) <==> (rule.dirOnly ==> isDir) && glob(rule.pattern, segs[|segs| - 1])
  {
    var rule := CompilePattern(action, pattern).value;
    assert OccursAt(STARS, STARS, 0);
    SlashlessIsOneSegment(rule.pattern);
    hide CompilePattern, MatchesAnywhere, Segments;
    AnywhereOneSegment(glob, rule.pattern, Segments(path));
  }

  // ---- The whole rule list ----

  /** The first rule that matches decides; without one the entry stays. */
  predicate Included(glob: Glob, rules: seq<Rule>, e: FileEntry) {
    if rules == [] then true
    else if Matches(glob, rules[0], Render(e.path), e.kind == Directory) then rules[0].action == Include
    else Included(glob, rules[1..], e)
  }

  predicate Decides(glob: Glob, rules: seq<Rule>, e: FileEntry, k: nat) {
    && k < |rules| && Matches(glob, rules[k], Render(e.path), e.kind == Directory)
    && forall j :: 0 <= j < k ==> !Matches(glob, rules[j], Render(e.path), e.kind == Directory)
  }

  /** An entry is dropped exactly when some exclude rule matches and no earlier rule does. */
  lemma {:induction false} FirstMatchWins(glob: Glob, rules: seq<Rule>, e: FileEntry)
    ensures !Included(glob, rules, e) <==> exists k: nat :: Decides(glob, rules, e, k) && rules[k].action == Exclude
  {
    hide Matches;
    if rules != [] {
      FirstMatchWins(glob, rules[1..], e);
      if Matches(glob, rules[0], Render(e.path), e.kind == Directory) {
        assert Decides(glob, rules, e, 0);
      } else {
        forall k: nat ensures Decides(glob, rules, e, k + 1) <==> Decides(glob, rules[1..], e, k) {
          DecidesLater(glob, rules, e, k);
        }
        assert forall k: nat :: k < |rules[1..]| ==> rules[k + 1] == rules[1..][k];
        assert !Decides(glob, rules, e, 0);
        if exists k: nat :: Decides(glob, rules, e, k) && rules[k].action == Exclude {
          var k: nat :| Decides(glob, rules, e, k) && rules[k].action == Exclude;
          assert k != 0;
          assert Decides(glob, rules[1..], e, k - 1);
        }
      }
    }
  }

  lemma DecidesLater(glob: Glob, rules: seq<Rule>, e: FileEntry, k: nat)
    requires rules != [] && !Matches(glob, rules[0], Render(e.path), e.kind == Directory)
    ensures Decides(glob, rules, e, k + 1) <==> Decides(glob, rules[1..], e, k)
  {
    hide Matches;
    assert forall j: nat :: j < |rules[1..]| ==> rules[1..][j] == rules[j + 1];
    if Decides(glob, rules[1..], e, k) {
      forall j | 0 <= j < k + 1 ensures !Matches(glob, rules[j], Render(e.path), e.kind == Directory) {
        if j > 0 {
          assert rules[1..][j - 1] == rules[j];
        }
      }
    }
  }

  method IncludedBy(glob: Glob, rules: seq<Rule>, e: FileEntry) returns (b: bool)
    ensures b == Included(glob, rules, e)
  {
    for i := 0 to |rules|
      invariant Included(glob, rules, e) == Included(glob, rules[i..], e)
    {
      assert rules[i..][0] == rules[i] && rules[i..][1..] == rules[i + 1..];
      var hit := MatchesRule(glob, rules[i], Render(e.path), e.kind == Directory);
      if hit {
        return rules[i].action == Include;
      }
    }
    return true;
  }

  /** The included entries, in their order. */
  function Kept(glob: Glob, entries: seq<FileEntry>, rules: seq<Rule>): seq<FileEntry> {
    if entries == [] then []
    else
      var init, last := Kept(glob, entries[..|entries| - 1], rules), entries[|entries| - 1];
      if Included(glob, rules, last) then init + [last] else init
  }

  method FilterEntries(glob: Glob, entries: seq<FileEntry>, rules: seq<Rule>) returns (kept: seq<FileEntry>)
    ensures kept == Kept(glob, entries, rules)
  {
    kept := [];
    for i := 0 to |entries|
      invariant kept == Kept(glob, entries[..i], rules)
    {
      assert entries[..i + 1][..i] == entries[..i];
      var keep := IncludedBy(glob, rules, entries[i]);
      if keep {
        kept := kept + [entries[i]];
      }
    }
    assert entries[..|entries|] == entries;
  }

  /** The places in the list from which the kept entries come, in increasing order: exactly those of the included entries. */
  function Places(glob: Glob, entries: seq<FileEntry>, rules: seq<Rule>): seq<nat> {
    if entries == [] then []
    else
      var init, n := Places(glob, entries[..|entries| - 1], rules), |entries| - 1;
      if Included(glob, rules, entries[n]) then init + [n] else init
  }

  lemma {:induction false} KeptInOrder(glob: Glob, entries: seq<FileEntry>, rules: seq<Rule>)
    ensures |Places(glob, entries, rules)| == |Kept(glob, entries, rules)|
    ensures forall i, j :: 0 <= i < j < |Places(glob, entries, rules)| ==> Places(glob, entries, rules)[i] < Places(glob, entries, rules)[j]
    ensures forall i :: 0 <= i < |Places(glob, entries, rules)| ==> Places(glob, entries, rules)[i] < |entries|
    ensures forall i :: 0 <= i < |Places(glob, entries, rules)| ==> Kept(glob, entries, rules)[i] == entries[Places(glob, entries, rules)[i]]
    ensures forall n :: 0 <= n < |entries| ==> (n in Places(glob, entries, rules) <==> Included(glob, rules, entries[n]))
  {
    hide Included;
    if entries != [] {
      var init := entries[..|entries| - 1];
      KeptInOrder(glob, init, rules);
      var before := Places(glob, init, rules);
      forall n | 0 <= n < |entries| ensures n in Places(glob, entries, rules) <==> Included(glob, rules, entries[n]) {
        if n < |init| {
          assert init[n] == entries[n];
        }
      }
    }
  }
}
