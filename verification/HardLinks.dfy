/** Which listed files are one file at the source (internal/sync/hardlinks.go). */
module HardLinks {
  import opened Prelude
  import opened FileSystem
  import opened Entries
  import opened Ordering
  import opened EndToEnd

  /** hardLinkKey: an inode number is only unique within its device. */
  datatype InodeKey = InodeKey(dev: nat, ino: nat)

  /** What lstat says of source paths: absent is an error, None an identity the platform does not tell. */
  type Identities = map<Path, Option<InodeKey>>

  function LeaderName(g: Group): string {
    if g == [] then "" else Render(g[0])
  }

  ghost predicate DistinctPaths(entries: seq<FileEntry>) {
    forall i, j :: 0 <= i < j < |entries| ==> Render(entries[i].path) != Render(entries[j].path)
  }

  /** A listed regular file whose identity is known. */
  ghost predicate Candidate(stat: Identities, entries: seq<FileEntry>, p: Path) {
    && p in stat && stat[p].Some?
    && exists i :: 0 <= i < |entries| && entries[i].kind == Regular && entries[i].path == p
  }

  predicate MembersSorted(groups: seq<Group>) {
    forall g :: 0 <= g < |groups| ==> 2 <= |groups[g]| && Increasing(Render, groups[g])
  }

  ghost predicate Disjoint(groups: seq<Group>) {
    forall g, h, p :: 0 <= g < |groups| && 0 <= h < |groups| && p in groups[g] && p in groups[h] ==> g == h
  }

  ghost predicate OnlyCandidates(stat: Identities, entries: seq<FileEntry>, groups: seq<Group>) {
    forall g, p :: 0 <= g < |groups| && p in groups[g] ==> Candidate(stat, entries, p)
  }

  ghost predicate TogetherExactly(stat: Identities, entries: seq<FileEntry>, groups: seq<Group>) {
    forall p, q :: Candidate(stat, entries, p) && Candidate(stat, entries, q) && p != q ==> (SameGroup(groups, p, q) <==> stat[p] == stat[q])
  }

  /**
   * Disjoint groups of at least two candidates each, members and groups in
   * byte order, in which two candidates are together exactly when they are
   * one inode of one device.
   */
  ghost predicate Canonical(stat: Identities, entries: seq<FileEntry>, groups: seq<Group>) {
    && MembersSorted(groups) && Increasing(LeaderName, groups) && Disjoint(groups)
    && OnlyCandidates(stat, entries, groups) && TogetherExactly(stat, entries, groups)
  }

  // ---- Canonical groups are unique ----

  lemma MemberOfBoth(stat: Identities, entries: seq<FileEntry>, a: seq<Group>, b: seq<Group>, g: nat, h: nat, p: Path, x: Path)
    requires Canonical(stat, entries, a) && Canonical(stat, entries, b)
    requires g < |a| && h < |b| && p in a[g] && p in b[h] && x in a[g]
    ensures x in b[h]
  {
    if x != p {
      assert Candidate(stat, entries, p) && Candidate(stat, entries, x);
      assert SameGroup(a, p, x) && SameGroup(b, p, x);
      var n :| 0 <= n < |b| && p in b[n] && x in b[n];
    }
  }

  lemma GroupIsInBoth(stat: Identities, entries: seq<FileEntry>, a: seq<Group>, b: seq<Group>, g: nat)
    requires Canonical(stat, entries, a) && Canonical(stat, entries, b) && g < |a|
    ensures a[g] in b
  {
    var p, q := a[g][0], a[g][1];
    LessIsTotal(Render(p), Render(q));
    assert p in a[g] && q in a[g] && p != q;
    assert Candidate(stat, entries, p) && Candidate(stat, entries, q);
    assert SameGroup(a, p, q) && SameGroup(b, p, q);
    var h :| 0 <= h < |b| && p in b[h] && q in b[h];
    forall x ensures x in a[g] <==> x in b[h] {
      if x in a[g] {
        MemberOfBoth(stat, entries, a, b, g, h, p, x);
      }
      if x in b[h] {
        MemberOfBoth(stat, entries, b, a, h, g, p, x);
      }
    }
    IncreasingIsUnique(Render, a[g], b[h]);
  }

  /** The iteration order of the map decides nothing. */
  lemma CanonicalIsUnique(stat: Identities, entries: seq<FileEntry>, a: seq<Group>, b: seq<Group>)
    requires Canonical(stat, entries, a) && Canonical(stat, entries, b)
    ensures a == b
  {
    forall x ensures x in a <==> x in b {
      if x in a {
        var g :| 0 <= g < |a| && a[g] == x;
        GroupIsInBoth(stat, entries, a, b, g);
      }
      if x in b {
        var g :| 0 <= g < |b| && b[g] == x;
        GroupIsInBoth(stat, entries, b, a, g);
      }
    }
    IncreasingIsUnique(LeaderName, a, b);
  }

  // ---- DetectHardLinks ----

  /** The paths the map holds for one key after the first i entries. */
  function PathsWith(stat: Identities, entries: seq<FileEntry>, key: InodeKey): seq<Path> {
    if entries == [] then []
    else
      var last, before := entries[|entries| - 1], PathsWith(stat, entries[..|entries| - 1], key);
      if last.kind == Regular && last.path in stat && stat[last.path] == Some(key) then before + [last.path] else before
  }

  lemma {:induction false} PathsWithMembers(stat: Identities, entries: seq<FileEntry>, key: InodeKey, p: Path)
    ensures p in PathsWith(stat, entries, key) <==> Candidate(stat, entries, p) && stat[p] == Some(key)
  {
    if entries != [] {
      var init, last := entries[..|entries| - 1], entries[|entries| - 1];
      PathsWithMembers(stat, init, key, p);
      assert entries == init + [last];
      if Candidate(stat, entries, p) {
        var i :| 0 <= i < |entries| && entries[i].kind == Regular && entries[i].path == p;
        if i < |init| {
          assert init[i] == entries[i];
        }
      }
      if Candidate(stat, init, p) {
        var i :| 0 <= i < |init| && init[i].kind == Regular && init[i].path == p;
        assert entries[i] == init[i];
      }
    }
  }

  lemma {:induction false} PathsWithDistinct(stat: Identities, entries: seq<FileEntry>, key: InodeKey)
    requires DistinctPaths(entries)
    ensures Unrepeated(Render, PathsWith(stat, entries, key))
  {
    if entries != [] {
      var init, last := entries[..|entries| - 1], entries[|entries| - 1];
      PathsWithDistinct(stat, init, key);
      var before := PathsWith(stat, init, key);
      forall i | 0 <= i < |before| ensures Render(before[i]) != Render(last.path) {
        PathsWithMembers(stat, init, key, before[i]);
        var n :| 0 <= n < |init| && init[n].kind == Regular && init[n].path == before[i];
        assert entries[n] == init[n];
      }
    }
  }

  function GroupOf(stat: Identities, entries: seq<FileEntry>, key: InodeKey): Group {
    SortBy(Render, PathsWith(stat, entries, key))
  }

  lemma GroupOfFacts(stat: Identities, entries: seq<FileEntry>, key: InodeKey)
    requires DistinctPaths(entries)
    ensures Increasing(Render, GroupOf(stat, entries, key))
    ensures |GroupOf(stat, entries, key)| == |PathsWith(stat, entries, key)|
    ensures forall p :: p in GroupOf(stat, entries, key) <==> Candidate(stat, entries, p) && stat[p] == Some(key)
  {
    var paths := PathsWith(stat, entries, key);
    PathsWithDistinct(stat, entries, key);
    SortByIsIncreasing(Render, paths);
    assert |multiset(SortBy(Render, paths))| == |multiset(paths)|;
    forall p ensures p in GroupOf(stat, entries, key) <==> Candidate(stat, entries, p) && stat[p] == Some(key) {
      MultisetMembers(SortBy(Render, paths), paths, p);
      PathsWithMembers(stat, entries, key, p);
    }
  }

  ghost predicate ComesFrom(stat: Identities, entries: seq<FileEntry>, seen: set<InodeKey>, g: Group) {
    exists k :: k in seen && 2 <= |PathsWith(stat, entries, k)| && g == GroupOf(stat, entries, k)
  }

  /** groups holds, each once, the groups of the keys in `seen` that have two paths or more. */
  ghost predicate Collected(stat: Identities, entries: seq<FileEntry>, seen: set<InodeKey>, groups: seq<Group>) {
    && (forall g :: 0 <= g < |groups| ==> ComesFrom(stat, entries, seen, groups[g]))
    && (forall k :: k in seen && 2 <= |PathsWith(stat, entries, k)| ==> GroupOf(stat, entries, k) in groups)
    && (forall g, h :: 0 <= g < h < |groups| ==> groups[g] != groups[h])
  }

  lemma GroupTellsKey(stat: Identities, entries: seq<FileEntry>, k: InodeKey, l: InodeKey, p: Path)
    requires DistinctPaths(entries) && p in GroupOf(stat, entries, k) && p in GroupOf(stat, entries, l)
    ensures k == l
  {
    GroupOfFacts(stat, entries, k);
    GroupOfFacts(stat, entries, l);
  }

  lemma ComesFromMore(stat: Identities, entries: seq<FileEntry>, seen: set<InodeKey>, more: set<InodeKey>, g: Group)
    requires ComesFrom(stat, entries, seen, g) && seen <= more
    ensures ComesFrom(stat, entries, more, g)
  {
    hide PathsWith, GroupOf;
    var l :| l in seen && 2 <= |PathsWith(stat, entries, l)| && g == GroupOf(stat, entries, l);
    assert l in more;
  }

  lemma NewGroupIsNew(stat: Identities, entries: seq<FileEntry>, seen: set<InodeKey>, g: Group, k: InodeKey)
    requires DistinctPaths(entries) && ComesFrom(stat, entries, seen, g) && k !in seen
    ensures g != GroupOf(stat, entries, k)
  {
    hide PathsWith, GroupOf, Candidate, DistinctPaths, ComesFrom;
    var l := KeyOf(stat, entries, seen, g);
    if g == GroupOf(stat, entries, k) {
      GroupTellsKey(stat, entries, k, l, g[0]);
    }
  }

  lemma CollectedGrows(stat: Identities, entries: seq<FileEntry>, seen: set<InodeKey>, groups: seq<Group>, k: InodeKey)
    requires DistinctPaths(entries) && Collected(stat, entries, seen, groups) && k !in seen
    ensures |PathsWith(stat, entries, k)| < 2 ==> Collected(stat, entries, seen + {k}, groups)
    ensures 2 <= |PathsWith(stat, entries, k)| ==> Collected(stat, entries, seen + {k}, groups + [GroupOf(stat, entries, k)])
  {
    hide PathsWith, GroupOf, Candidate, DistinctPaths;
    forall g | 0 <= g < |groups| ensures ComesFrom(stat, entries, seen + {k}, groups[g]) && groups[g] != GroupOf(stat, entries, k) {
      ComesFromMore(stat, entries, seen, seen + {k}, groups[g]);
      NewGroupIsNew(stat, entries, seen, groups[g], k);
    }
    var more := groups + [GroupOf(stat, entries, k)];
    assert more[|groups|] == GroupOf(stat, entries, k);
  }

  lemma CollectedLeaders(stat: Identities, entries: seq<FileEntry>, seen: set<InodeKey>, groups: seq<Group>)
    requires DistinctPaths(entries) && Collected(stat, entries, seen, groups)
    ensures Unrepeated(LeaderName, groups)
  {
    forall g, h | 0 <= g < h < |groups| ensures LeaderName(groups[g]) != LeaderName(groups[h]) {
      var k :| k in seen && 2 <= |PathsWith(stat, entries, k)| && groups[g] == GroupOf(stat, entries, k);
      var l :| l in seen && 2 <= |PathsWith(stat, entries, l)| && groups[h] == GroupOf(stat, entries, l);
      GroupOfFacts(stat, entries, k);
      GroupOfFacts(stat, entries, l);
      var p, q := groups[g][0], groups[h][0];
      assert p in groups[g] && q in groups[h];
      if Render(p) == Render(q) {
        SameRendering(entries, p, q);
      }
    }
  }

  lemma SameRendering(entries: seq<FileEntry>, p: Path, q: Path)
    requires DistinctPaths(entries) && Render(p) == Render(q)
    requires exists i :: 0 <= i < |entries| && entries[i].kind == Regular && entries[i].path == p
    requires exists i :: 0 <= i < |entries| && entries[i].kind == Regular && entries[i].path == q
    ensures p == q
  {
    var i :| 0 <= i < |entries| && entries[i].kind == Regular && entries[i].path == p;
    var j :| 0 <= j < |entries| && entries[j].kind == Regular && entries[j].path == q;
  }

  /** Every candidate's key has been seen. */
  ghost predicate AllSeen(stat: Identities, entries: seq<FileEntry>, seen: set<InodeKey>) {
    forall p :: Candidate(stat, entries, p) ==> stat[p].value in seen
  }

  /** Sorting keeps what was collected. */
  lemma SortedStaysCollected(stat: Identities, entries: seq<FileEntry>, seen: set<InodeKey>, groups: seq<Group>)
    requires DistinctPaths(entries) && Collected(stat, entries, seen, groups)
    ensures Increasing(LeaderName, SortBy(LeaderName, groups))
    ensures AllComeFrom(stat, entries, seen, SortBy(LeaderName, groups))
    ensures AllPresent(stat, entries, seen, SortBy(LeaderName, groups))
  {
    CollectedLeaders(stat, entries, seen, groups);
    hide PathsWith, GroupOf, Candidate, DistinctPaths, ComesFrom, SortBy, Increasing, Unrepeated;
    SortByFacts(LeaderName, groups);
    var done := SortBy(LeaderName, groups);
    forall g | 0 <= g < |done| ensures ComesFrom(stat, entries, seen, done[g]) {
      assert done[g] in groups;
    }
  }

  ghost predicate AllComeFrom(stat: Identities, entries: seq<FileEntry>, seen: set<InodeKey>, groups: seq<Group>) {
    forall g :: 0 <= g < |groups| ==> ComesFrom(stat, entries, seen, groups[g])
  }

  ghost predicate AllPresent(stat: Identities, entries: seq<FileEntry>, seen: set<InodeKey>, groups: seq<Group>) {
    forall k :: k in seen && 2 <= |PathsWith(stat, entries, k)| ==> GroupOf(stat, entries, k) in groups
  }

  /** Two groups with a common member are one. */
  lemma CollectedDisjoint(stat: Identities, entries: seq<FileEntry>, seen: set<InodeKey>, done: seq<Group>, g: nat, h: nat, p: Path)
    requires DistinctPaths(entries) && g < |done| && h < |done| && p in done[g] && p in done[h] && Increasing(LeaderName, done)
    requires ComesFrom(stat, entries, seen, done[g]) && ComesFrom(stat, entries, seen, done[h])
    ensures g == h
  {
    hide PathsWith, GroupOf, Candidate, DistinctPaths, ComesFrom, LeaderName;
    var k := KeyOf(stat, entries, seen, done[g]);
    var l := KeyOf(stat, entries, seen, done[h]);
    assert k == l;
    LessIsTotal(LeaderName(done[g]), LeaderName(done[h]));
  }

  lemma PartsAreCanonical(stat: Identities, entries: seq<FileEntry>, seen: set<InodeKey>, done: seq<Group>)
    requires DistinctPaths(entries) && AllSeen(stat, entries, seen) && Increasing(LeaderName, done)
    requires AllComeFrom(stat, entries, seen, done) && AllPresent(stat, entries, seen, done)
    ensures MembersSorted(done) && OnlyCandidates(stat, entries, done) && Disjoint(done)
  {
    hide PathsWith, GroupOf, Candidate, DistinctPaths, ComesFrom, LeaderName, AllSeen, Increasing, AllPresent;
    forall g | 0 <= g < |done| ensures 2 <= |done[g]| && Increasing(Render, done[g]) && forall p :: p in done[g] ==> Candidate(stat, entries, p) {
      var k := KeyOf(stat, entries, seen, done[g]);
    }
    forall g, h, p | 0 <= g < |done| && 0 <= h < |done| && p in done[g] && p in done[h] ensures g == h {
      CollectedDisjoint(stat, entries, seen, done, g, h, p);
    }
  }

  lemma SortedIsCanonical(stat: Identities, entries: seq<FileEntry>, seen: set<InodeKey>, groups: seq<Group>)
    requires DistinctPaths(entries) && Collected(stat, entries, seen, groups) && AllSeen(stat, entries, seen)
    ensures Canonical(stat, entries, SortBy(LeaderName, groups))
  {
    hide PathsWith, GroupOf, Candidate, DistinctPaths, ComesFrom, SortBy, LeaderName, Collected, AllSeen, SameGroup, Increasing, AllComeFrom, AllPresent, MembersSorted, OnlyCandidates, Disjoint;
    var done := SortBy(LeaderName, groups);
    SortedStaysCollected(stat, entries, seen, groups);
    PartsAreCanonical(stat, entries, seen, done);
    forall p, q | Candidate(stat, entries, p) && Candidate(stat, entries, q) && p != q
      ensures p in stat && q in stat && (SameGroup(done, p, q) <==> stat[p] == stat[q])
    {
      CandidateIsKnown(stat, entries, p);
      CandidateIsKnown(stat, entries, q);
      TogetherIffOneInode(stat, entries, seen, done, p, q);
    }
  }

  lemma CandidateIsKnown(stat: Identities, entries: seq<FileEntry>, p: Path)
    requires Candidate(stat, entries, p)
    ensures p in stat && stat[p].Some?
  {
  }

  lemma KeyOf(stat: Identities, entries: seq<FileEntry>, seen: set<InodeKey>, g: Group) returns (k: InodeKey)
    requires DistinctPaths(entries) && ComesFrom(stat, entries, seen, g)
    ensures k in seen && g == GroupOf(stat, entries, k) && 2 <= |g| && Increasing(Render, g)
    ensures forall p :: p in g <==> Candidate(stat, entries, p) && stat[p] == Some(k)
  {
    k :| k in seen && 2 <= |PathsWith(stat, entries, k)| && g == GroupOf(stat, entries, k);
    GroupOfFacts(stat, entries, k);
  }

  lemma TogetherIffOneInode(stat: Identities, entries: seq<FileEntry>, seen: set<InodeKey>, done: seq<Group>, p: Path, q: Path)
    requires DistinctPaths(entries) && AllSeen(stat, entries, seen)
    requires AllComeFrom(stat, entries, seen, done) && AllPresent(stat, entries, seen, done)
    requires Candidate(stat, entries, p) && Candidate(stat, entries, q) && p != q
    ensures SameGroup(done, p, q) <==> stat[p] == stat[q]
  {
    hide PathsWith, Candidate, DistinctPaths, ComesFrom;
    CandidateIsKnown(stat, entries, p);
    CandidateIsKnown(stat, entries, q);
    if SameGroup(done, p, q) {
      var g :| 0 <= g < |done| && p in done[g] && q in done[g];
      var k := KeyOf(stat, entries, seen, done[g]);
    }
    if stat[p] == stat[q] {
      var k := stat[p].value;
      GroupOfFacts(stat, entries, k);
      var paths := PathsWith(stat, entries, k);
      PathsWithMembers(stat, entries, k, p);
      PathsWithMembers(stat, entries, k, q);
      var i :| 0 <= i < |paths| && paths[i] == p;
      var j :| 0 <= j < |paths| && paths[j] == q;
      assert 2 <= |paths|;
      var g :| 0 <= g < |done| && done[g] == GroupOf(stat, entries, k);
      assert p in done[g] && q in done[g];
    }
  }

  /** The map after the entries so far: every key with the paths that have it. */
  ghost predicate Indexed(stat: Identities, entries: seq<FileEntry>, byKey: map<InodeKey, seq<Path>>) {
    forall k :: if k in byKey then byKey[k] == PathsWith(stat, entries, k) else PathsWith(stat, entries, k) == []
  }

  lemma IndexedGrows(stat: Identities, entries: seq<FileEntry>, byKey: map<InodeKey, seq<Path>>, i: nat)
    requires i < |entries| && Indexed(stat, entries[..i], byKey)
    requires entries[i].kind == Regular ==> entries[i].path in stat
    ensures entries[i].kind != Regular || stat[entries[i].path].None? ==> Indexed(stat, entries[..i + 1], byKey)
    ensures entries[i].kind == Regular && stat[entries[i].path].Some? ==>
      var key := stat[entries[i].path].value;
      Indexed(stat, entries[..i + 1], byKey[key := (if key in byKey then byKey[key] else []) + [entries[i].path]])
  {
    assert entries[..i + 1][..i] == entries[..i];
  }

  /** Groups the paths of the listed regular files by inode key. */
  method IndexByInode(stat: Identities, entries: seq<FileEntry>) returns (r: Result<map<InodeKey, seq<Path>>, FsError>)
    ensures r.Err? <==> exists i :: 0 <= i < |entries| && entries[i].kind == Regular && entries[i].path !in stat
    ensures r.Ok? ==> Indexed(stat, entries, r.value)
  {
    var byKey: map<InodeKey, seq<Path>> := map[];
    for i := 0 to |entries|
      invariant forall n :: 0 <= n < i && entries[n].kind == Regular ==> entries[n].path in stat
      invariant Indexed(stat, entries[..i], byKey)
    {
      hide Indexed;
      var e := entries[i];
      if e.kind == Regular && e.path !in stat {
        return Err(ENOENT);
      }
      IndexedGrows(stat, entries, byKey, i);
      if e.kind == Regular && stat[e.path].Some? {
        var key := stat[e.path].value;
        byKey := byKey[key := (if key in byKey then byKey[key] else []) + [e.path]];
      }
    }
    assert entries[..|entries|] == entries;
    return Ok(byKey);
  }

  lemma IndexedHas(stat: Identities, entries: seq<FileEntry>, byKey: map<InodeKey, seq<Path>>)
    requires Indexed(stat, entries, byKey)
    ensures forall k :: k in byKey ==> byKey[k] == PathsWith(stat, entries, k)
    ensures AllSeen(stat, entries, byKey.Keys)
  {
    forall p | Candidate(stat, entries, p) ensures stat[p].value in byKey.Keys {
      PathsWithMembers(stat, entries, stat[p].value, p);
    }
  }

  /** Fails when a listed regular file cannot be examined; otherwise the canonical groups, whatever order the map is walked in. */
  method DetectHardLinks(stat: Identities, entries: seq<FileEntry>) returns (r: Result<seq<Group>, FsError>)
    requires DistinctPaths(entries)
    ensures r.Err? <==> exists i :: 0 <= i < |entries| && entries[i].kind == Regular && entries[i].path !in stat
    ensures r.Ok? ==> Canonical(stat, entries, r.value)
  {
    var indexed := IndexByInode(stat, entries);
    if indexed.Err? {
      return Err(indexed.error);
    }
    var byKey := indexed.value;
    IndexedHas(stat, entries, byKey);
    hide Indexed, Collected, AllSeen, Canonical, DistinctPaths, PathsWith, SortBy;
    var groups: seq<Group> := [];
    var remaining := byKey.Keys;
    ghost var seen: set<InodeKey> := {};
    NothingCollected(stat, entries);
    while remaining != {}
      invariant seen + remaining == byKey.Keys && seen !! remaining
      invariant Collected(stat, entries, seen, groups)
      decreases |remaining|
    {
      var key :| key in remaining;
      CollectedGrows(stat, entries, seen, groups, key);
      if 2 <= |byKey[key]| {
        groups := groups + [SortBy(Render, byKey[key])];
      }
      remaining := remaining - {key};
      seen := seen + {key};
    }
    assert seen == byKey.Keys;
    SortedIsCanonical(stat, entries, seen, groups);
    return Ok(SortBy(LeaderName, groups));
  }

  lemma NothingCollected(stat: Identities, entries: seq<FileEntry>)
    ensures Collected(stat, entries, {}, [])
  {
  }
}
