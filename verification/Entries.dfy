/**
 * File-list entries, the options of a transfer, and what every list the
 * sender produces satisfies (internal/sync/walk.go, internal/pipeline/itemize.go).
 */
module Entries {
  import opened Prelude
  import opened FileSystem

  datatype Kind = Regular | Directory | Symlinked

  /** ownership is OwnershipAvailable; mode is the whole mode word, of which nine bits are permissions. */
  datatype FileEntry = FileEntry(path: Path, kind: Kind, size: int, mtime: int, mode: int,
                                 uid: int, gid: int, ownership: bool, target: string)

  datatype AttrOptions = AttrOptions(perms: bool, times: bool, owner: bool, group: bool, links: bool)

  datatype PartialDir = Absolute(dir: Path) | Relative(dir: Path)

  datatype ReceiverOptions = ReceiverOptions(dryRun: bool, itemize: bool, verbose: bool, keepPartial: bool,
                                             partialDir: Option<PartialDir>, append: bool, appendVerify: bool)
  {
    predicate AppendMode() {
      append || appendVerify
    }

    predicate KeepPartial() {
      keepPartial || partialDir.Some?
    }
  }

  type Group = seq<Path>

  datatype FileList = FileList(entries: seq<FileEntry>, groups: seq<Group>)

  const PERM_BITS := 512

  function Perm(mode: int): int {
    mode % PERM_BITS
  }

  /** The "/"-joined form of a path. */
  function Render(p: Path): string {
    if p == [] then ""
    else if |p| == 1 then p[0]
    else p[0] + "/" + Render(p[1..])
  }

  /** Every group member but the first. */
  predicate Secondary(groups: seq<Group>, p: Path) {
    exists g :: 0 <= g < |groups| && groups[g] != [] && p in groups[g][1..]
  }

  /** Whether the entry takes part in the signature and delta exchange. */
  predicate Transfers(list: FileList, e: FileEntry) {
    e.kind == Regular && !Secondary(list.groups, e.path)
  }

  /**
   * Paths are distinct and not the root, nothing precedes what it lies under,
   * only directories have entries under them, and hard-link groups are
   * disjoint sets of at least two listed regular files.
   */
  ghost predicate WellFormed(list: FileList) {
    && (forall i :: 0 <= i < |list.entries| ==> list.entries[i].path != [])
    && (forall i, j :: 0 <= i < j < |list.entries| ==> !(list.entries[j].path <= list.entries[i].path))
    && (forall i, j :: 0 <= i < j < |list.entries| && list.entries[i].path < list.entries[j].path ==> list.entries[i].kind == Directory)
    && (forall g :: 0 <= g < |list.groups| ==> 2 <= |list.groups[g]|)
    && (forall g, m :: 0 <= g < |list.groups| && 0 <= m < |list.groups[g]| ==> Listed(list, list.groups[g][m]))
    && (forall g, m, h, n ::
          (0 <= g < |list.groups| && 0 <= m < |list.groups[g]| &&
           0 <= h < |list.groups| && 0 <= n < |list.groups[h]| &&
           list.groups[g][m] == list.groups[h][n]) ==> g == h && m == n)
  }

  ghost predicate Listed(list: FileList, p: Path) {
    exists i :: 0 <= i < |list.entries| && list.entries[i].kind == Regular && list.entries[i].path == p
  }

  /** The first member of a group is transferred like any other file. */
  lemma FirstTransfers(list: FileList, g: nat)
    requires WellFormed(list) && g < |list.groups|
    ensures !Secondary(list.groups, list.groups[g][0])
  {
    forall h | 0 <= h < |list.groups| && list.groups[h] != [] ensures list.groups[g][0] !in list.groups[h][1..] {
      var tail := list.groups[h][1..];
      forall n | 0 <= n < |tail| ensures tail[n] != list.groups[g][0] {
        assert tail[n] == list.groups[h][n + 1];
      }
    }
  }
}
