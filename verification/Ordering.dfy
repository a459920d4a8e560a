/** Strings in byte order, "/"-separated paths, and sorting by a string key. */
module Ordering {
  import opened Prelude
  import opened FileSystem
  import opened Entries

  // ---- Go's string comparison ----

  predicate Less(a: string, b: string) {
    if a == [] then b != []
    else if b == [] then false
    else a[0] < b[0] || (a[0] == b[0] && Less(a[1..], b[1..]))
  }

  lemma {:induction false} LessIsTotal(a: string, b: string)
    ensures a != b ==> Less(a, b) || Less(b, a)
    ensures !(Less(a, b) && Less(b, a))
    ensures !Less(a, a)
  {
    if a != [] && b != [] {
      LessIsTotal(a[1..], b[1..]);
      if a[0] == b[0] && a[1..] == b[1..] {
        assert a == [a[0]] + a[1..] && b == [b[0]] + b[1..];
      }
    }
    if a != [] {
      LessIsTotal(a[1..], a[1..]);
    }
  }

  lemma {:induction false} LessIsTransitive(a: string, b: string, c: string)
    requires Less(a, b) && Less(b, c)
    ensures Less(a, c)
  {
    if a != [] {
      if a[0] == b[0] && b[0] == c[0] {
        LessIsTransitive(a[1..], b[1..], c[1..]);
      }
    }
  }

  lemma {:induction false} PrefixIsLess(a: string, b: string)
    requires a < b
    ensures Less(a, b)
  {
    if a != [] {
      PrefixIsLess(a[1..], b[1..]);
    }
  }

  // ---- Paths and their rendering ----

  /** strings.Split(s, "/"): never empty. */
  function Segments(s: string): (segs: seq<string>)
    ensures segs != []
  {
    if s == [] then [""]
    else
      var rest := Segments(s[1..]);
      if s[0] == '/' then [""] + rest else [[s[0]] + rest[0]] + rest[1..]
  }

  predicate ProperName(name: string) {
    name != "" && '/' !in name
  }

  predicate Proper(p: Path) {
    forall i :: 0 <= i < |p| ==> ProperName(p[i])
  }

  lemma {:induction false} NameIsOneSegment(name: string)
    requires '/' !in name
    ensures Segments(name) == [name]
  {
    if name != [] {
      NameIsOneSegment(name[1..]);
      assert [name[0]] + name[1..] == name;
    }
  }

  lemma {:induction false} SegmentsOfJoin(name: string, rest: string)
    requires '/' !in name
    ensures Segments(name + "/" + rest) == [name] + Segments(rest)
  {
    var s := name + "/" + rest;
    if name == [] {
      assert s[0] == '/' && s[1..] == rest;
    } else {
      SegmentsOfJoin(name[1..], rest);
      assert s[0] == name[0] && s[1..] == name[1..] + "/" + rest;
      assert [name[0]] + name[1..] == name;
    }
  }

  /** Splitting a rendered path gives the path back. */
  lemma {:induction false} SegmentsOfRender(p: Path)
    requires p != [] && Proper(p)
    ensures Segments(Render(p)) == p
  {
    if |p| == 1 {
      NameIsOneSegment(p[0]);
      assert p == [p[0]];
    } else {
      SegmentsOfRender(p[1..]);
      SegmentsOfJoin(p[0], Render(p[1..]));
      assert p == [p[0]] + p[1..];
    }
  }

  lemma RenderIsInjective(p: Path, q: Path)
    requires p != [] && q != [] && Proper(p) && Proper(q) && Render(p) == Render(q)
    ensures p == q
  {
    SegmentsOfRender(p);
    SegmentsOfRender(q);
  }

  lemma {:induction false} RenderExtends(p: Path, q: Path)
    requires p != [] && p < q
    ensures Render(p) < Render(q)
  {
    if |p| > 1 {
      assert p[1..] < q[1..];
      RenderExtends(p[1..], q[1..]);
      var a, b := Render(p[1..]), Render(q[1..]);
      assert Render(p) == p[0] + "/" + a && Render(q) == p[0] + "/" + b;
      assert (p[0] + "/" + b)[..|p[0] + "/" + a|] == p[0] + "/" + b[..|a|];
    } else {
      assert Render(q) == p[0] + ("/" + Render(q[1..]));
    }
  }

  /** In byte order of the rendered paths, a directory comes before everything in it. */
  lemma ParentComesFirst(p: Path, q: Path)
    requires p != [] && p < q
    ensures Less(Render(p), Render(q))
  {
    RenderExtends(p, q);
    PrefixIsLess(Render(p), Render(q));
  }

  // ---- Sorting by a key ----

  predicate Increasing<T>(key: T -> string, s: seq<T>) {
    forall i, j :: 0 <= i < j < |s| ==> Less(key(s[i]), key(s[j]))
  }

  ghost predicate Unrepeated<T>(key: T -> string, s: seq<T>) {
    forall i, j :: 0 <= i < j < |s| ==> key(s[i]) != key(s[j])
  }

  /** x put before the first element with a larger key. */
  function Insert<T>(key: T -> string, x: T, s: seq<T>): (r: seq<T>)
    ensures multiset(r) == multiset(s) + multiset{x}
  {
    if s == [] then [x]
    else if Less(key(x), key(s[0])) then
      [x] + s
    else
      assert s == [s[0]] + s[1..];
      [s[0]] + Insert(key, x, s[1..])
  }

  /** sort.Slice; which algorithm does not matter (see IncreasingIsUnique). */
  function SortBy<T>(key: T -> string, s: seq<T>): (r: seq<T>)
    ensures multiset(r) == multiset(s)
  {
    if s == [] then []
    else
      assert s == [s[0]] + s[1..];
      Insert(key, s[0], SortBy(key, s[1..]))
  }

  lemma {:induction false} InsertIsIncreasing<T>(key: T -> string, x: T, s: seq<T>)
    requires Increasing(key, s) && forall y :: y in s ==> key(y) != key(x)
    ensures Increasing(key, Insert(key, x, s))
  {
    if s != [] {
      LessIsTotal(key(x), key(s[0]));
      if Less(key(x), key(s[0])) {
        forall j | 0 <= j < |s| ensures Less(key(x), key(s[j])) {
          if j > 0 {
            LessIsTransitive(key(x), key(s[0]), key(s[j]));
          }
        }
      } else {
        assert s[0] in s;
        InsertIsIncreasing(key, x, s[1..]);
        var rest := Insert(key, x, s[1..]);
        forall j | 0 <= j < |rest| ensures Less(key(s[0]), key(rest[j])) {
          assert rest[j] in multiset(rest);
          if rest[j] != x {
            assert rest[j] in s[1..];
          }
        }
      }
    }
  }

  lemma MultisetMembers<T>(s: seq<T>, t: seq<T>, x: T)
    requires multiset(s) == multiset(t)
    ensures x in s <==> x in t
  {
    assert x in s <==> x in multiset(s);
    assert x in t <==> x in multiset(t);
  }

  lemma {:induction false} SortByIsIncreasing<T>(key: T -> string, s: seq<T>)
    requires Unrepeated(key, s)
    ensures Increasing(key, SortBy(key, s))
  {
    if s != [] {
      SortByIsIncreasing(key, s[1..]);
      forall y | y in SortBy(key, s[1..]) ensures key(y) != key(s[0]) {
        MultisetMembers(SortBy(key, s[1..]), s[1..], y);
        var i :| 0 <= i < |s[1..]| && s[1..][i] == y;
        assert s[i + 1] == y;
      }
      InsertIsIncreasing(key, s[0], SortBy(key, s[1..]));
    }
  }

  /** Sorting distinct keys: increasing, and the same members. */
  lemma SortByFacts<T>(key: T -> string, s: seq<T>)
    requires Unrepeated(key, s)
    ensures Increasing(key, SortBy(key, s)) && |SortBy(key, s)| == |s|
    ensures forall x :: x in SortBy(key, s) <==> x in s
  {
    hide SortBy, Unrepeated, Increasing;
    SortByIsIncreasing(key, s);
    assert |multiset(SortBy(key, s))| == |multiset(s)|;
    forall x ensures x in SortBy(key, s) <==> x in s {
      MultisetMembers(SortBy(key, s), s, x);
    }
  }

  /** Two increasing sequences with the same members are one: the result of sorting depends on nothing else. */
  lemma {:induction false} IncreasingIsUnique<T>(key: T -> string, s: seq<T>, t: seq<T>)
    requires Increasing(key, s) && Increasing(key, t) && forall x :: x in s <==> x in t
    ensures s == t
  {
    assert t != [] ==> t[0] in t;
    assert s != [] ==> s[0] in s;
    assert s == [] <==> t == [];
    if s != [] {
      FirstIsFirst(key, s, t);
      forall x ensures x in s[1..] <==> x in t[1..] {
        RestMembers(key, s, x);
        RestMembers(key, t, x);
      }
      IncreasingIsUnique(key, s[1..], t[1..]);
      assert s == [s[0]] + s[1..] && t == [t[0]] + t[1..];
    }
  }

  lemma FirstIsFirst<T>(key: T -> string, s: seq<T>, t: seq<T>)
    requires s != [] && t != [] && Increasing(key, s) && Increasing(key, t) && s[0] in t && t[0] in s
    ensures s[0] == t[0]
  {
    var i :| 0 <= i < |t| && t[i] == s[0];
    var j :| 0 <= j < |s| && s[j] == t[0];
    LessIsTotal(key(s[0]), key(t[0]));
  }

  lemma RestMembers<T>(key: T -> string, s: seq<T>, x: T)
    requires s != [] && Increasing(key, s)
    ensures x in s[1..] <==> x in s && x != s[0]
  {
    assert s == [s[0]] + s[1..];
    if x in s[1..] {
      var i :| 0 <= i < |s[1..]| && s[1..][i] == x;
      assert s[i + 1] == x;
      LessIsTotal(key(s[0]), key(x));
    }
  }
}
