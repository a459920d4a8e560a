/** When a directory exists or can be made, and when lstat is in the way of nothing. */
module Directories {
  import opened Prelude
  import opened FileSystem

  /** Nothing at d or above it is anything but a directory. */
  ghost predicate Makeable(fs: FS, d: Path) {
    forall a :: a <= d && a in fs.names ==> IsDir(fs, a)
  }

  lemma PrefixOfParent(a: Path, d: Path)
    requires d != []
    ensures a <= d <==> a == d || a <= Parent(d)
  {
    if a <= d && a != d {
      PrefixStep(a, d);
    }
    assert Parent(d) <= d;
  }

  lemma NamedIsFound(fs: FS, p: Path)
    requires Valid(fs)
    ensures p in fs.names <==> Lookup(fs, p).Some?
  {
  }

  lemma MakeableAbove(fs: FS, d: Path)
    requires Valid(fs) && d != []
    ensures Makeable(fs, d) <==> Makeable(fs, Parent(d)) && (d in fs.names ==> IsDir(fs, d))
  {
    forall a | a in fs.names ensures a <= d <==> a == d || a <= Parent(d) {
      PrefixOfParent(a, d);
    }
  }

  /** What has a name has directories above it. */
  lemma NamedIsReachable(fs: FS, p: Path)
    requires Valid(fs) && p in fs.names && p != []
    ensures Makeable(fs, Parent(p))
  {
    forall a | a <= Parent(p) && a in fs.names ensures IsDir(fs, a) {
      assert Parent(p) < p && a < p;
      AboveIsDir(fs, p, a);
    }
  }

  /** mkdir -p succeeds exactly when nothing is in its way. */
  lemma {:induction false} MkdirAllIff(proc: Process, fs: FS, d: Path)
    requires Valid(fs)
    ensures MkdirAll(proc, fs, d).Ok? <==> Makeable(fs, d)
    decreases |d|
  {
    NamedIsFound(fs, d);
    if d == [] {
      assert forall a :: a in fs.names && a <= d ==> a == d;
    } else {
      MakeableAbove(fs, d);
      if d in fs.names {
        NamedIsReachable(fs, d);
      } else {
        MkdirAllIff(proc, fs, Parent(d));
      }
    }
  }

  /** lstat reports a name, or nothing, or - exactly where something above is no directory - that it cannot look. */
  lemma {:induction false} BlockedIff(fs: FS, p: Path)
    requires Valid(fs) && p != []
    ensures Lstat(fs, p) == Blocked <==> !Makeable(fs, Parent(p))
    ensures Lstat(fs, p).Present? <==> p in fs.names
    decreases |p|
  {
    NamedIsFound(fs, p);
    var up := Parent(p);
    NamedIsFound(fs, up);
    if p in fs.names {
      NamedIsReachable(fs, p);
    } else if up == [] {
      assert forall a :: a in fs.names && a <= up ==> a == up;
    } else {
      BlockedIff(fs, up);
      MakeableAbove(fs, up);
      if up in fs.names {
        NamedIsReachable(fs, up);
      }
    }
  }
}
