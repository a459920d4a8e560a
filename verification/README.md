# grsync, verified

A Dafny model of grsync: the delta-transfer algorithm, the two-party transfer
built on it, the daemon session around it, and the file selection before it,
with proofs of what they promise. `dafny verify dfyconfig.toml` checks it all.

## Structure

| layer | modules |
|---|---|
| delta engine | Checksum, Blocks, Delta, Wire |
| byte streams | Frames, Lines |
| destination | FileSystem, Directories, Attributes, Itemize, TempWrite, Keeping, Disks |
| one transfer | Entries, Receiver, SyncRun, Effects, Runs, FinalPasses, EndToEnd |
| when it succeeds | Welcome, Success, Deliveries |
| consequences | OneFile, DryRun, Idempotence, SecondRun, Append, Accounting, Tallies, Twins, Replay |
| any partial directory | Contents, PartialDirs, PartialMisses |
| both sides at once | LocalSync, Lockstep, Interleavings, Sides |
| whatever is sent | Refusals, Failures, Aftermath |
| at every step | Atomic, Names, Members, Presence, Rehearsal, Recovery, Resume |
| file selection | Ordering, Filter, Patterns, Walk, HardLinks, TreeAttributes |
| daemon | Daemon, Requests, Sessions, SessionOutcome, SessionBytes, SessionEnds, Parties |

The file system is a map from paths to inode numbers and from inode numbers to
files, directories and symlinks with mode, time and owner. Creating, renaming,
linking and removing stamp the directory above with the clock. `SyncRun.Run` is
the sequential meaning of a transfer: entry by entry, then the hard-link pass,
then the directory pass. `LocalSync` is the pair of goroutines over two
synchronous pipes; `Interleavings` shows that in every interleaving, with either
side failing anywhere, they do what `Run` does or fail, and always end.
`Daemon` is the same over one bounded connection that mixes lines and frames.
Code that the source writes as loops and updates is written so here as well, as
methods proved against those definitions: `Delta.GenerateDelta`,
`Frames.ReadFrame`, `Sides.RunReceiver`, `Sides.RunSender`, `Disks.Apply`,
`Parties.ServeConn` and the others in the table.

## Assumptions

Each is a named predicate and a `requires` of the theorems that need it.
`OneFile` shows that those of the whole-run theorems hold together, and
`Rehearsal.NamesCanBeFound` that those on temporary names do.

- `Delta.CollisionFree`, `Runs.Honest`, `PartialDirs.Collisionless`,
  `Accounting.CollisionlessThroughout`, `Idempotence.SelfHonest`: no block of
  the old data and window of the new one agree in both checksums and differ in
  their bytes. MD5 is an arbitrary function.
- `Wire.Inverts`: decompression inverts compression. `Replay.Carries`: gob
  decoding inverts encoding, and no payload exceeds a frame.
- `Runs.Sound`: the list is one a walk yields (`Walk.SentListIsWellFormed`
  proves that it always is), no two entries the main loop handles name one
  inode before the run, the run is not dry and uses no partial directory.
- `PartialDirs.Clear`, `Atomic.Ready`, `Names.Orderly`: the same without the
  restriction on inodes and with any partial directory, as long as no partial
  file lies at a listed path (`PartialDirs.Apart`). What happens where one does
  is stated in the next section.
- `Success.Aloof`: no partial file lies at or above a listed path, or below one
  that is no directory. A partial directory beside the files, as usual, is.
- `Idempotence.Stable`: the source has the listed files at their listed sizes.
- `TempWrite.FindsNames`: os.CreateTemp finds a free name beside every path in
  a directory that exists. `Atomic.TempUnlisted`: none of its names is a listed
  one. os.CreateTemp does not promise that: a leftover temporary file at the
  source is listed under such a name, and the random part could come out the
  same.
- No symbolic link lies at a listed regular path or above one. Here such a link
  is an error; the source reads, and changes mode and time, through it.
- `Sessions.Dials`: the client names a module, and not `#list`.

## Where the code and its comments part

- A file that has not changed still sends its short last block as literal data,
  as the scan never looks up a window shorter than a block. A second run
  therefore rewrites and reports nothing, but its literal count is the sum of
  the remainders (`SecondRun.SyncingAgainChangesNothing`).
- With a partial-directory file as the basis, the new data is compared with
  that file and not with the destination. If the partial file already is the
  source, an existing destination file keeps its old bytes
  (`PartialMisses.FinishedPartialHolds`).
- Once a new file is in place the partial file is removed without a look at
  where it lies. With --partial-dir=. that is the new file itself
  (`PartialMisses.OwnDirectoryTakes`), and with --partial-dir=a an entry f
  takes away a finished a/f (`PartialMisses.PartialDirectoryTakesFinishedFile`).
  `PartialDirs.PartialEntryExact` says exactly when one entry misses the
  source, `PartialDirs.SourceArrivesUnlessHeld` when a run does, and
  `PartialMisses.FinishedIsTaken` when a finished file is lost.
- Every file is renamed into place whole, but under --partial without a
  directory a failed write renames what was written so far over the destination
  file (`Atomic.FilesAreAtomic`).
- Secondary hard-link members are not replaced atomically: the name is absent
  between the two calls. `Presence.AbsentIffSecondary` shows that of the files
  that were there these and no others are ever absent, and
  `Rehearsal.RelinkIsReached` that such a moment comes in some schedule of
  every run that has one.

## Model

| member | source | states |
|---|---|---|
| Checksum.NewWeakChecksum | internal/sync/checksum.go:27-39 | the loop over a window computes the two sums of the rolling checksum, reduced modulo 2^16, on any window |
| Checksum.RollIsFresh | internal/sync/checksum.go:54-58 | rolling one byte out and one in, with 32-bit wrap-around at every operation, gives the checksum of the shifted window from scratch |
| Checksum.RollAlongIsFresh | internal/sync/checksum.go:46-58 | after any number of rolls over any data and window length the state is that of the current window from scratch |
| Checksum.RollStaysInRange | internal/sync/checksum.go:54-58 | both components stay below 2^16 under any roll |
| Checksum.SumInjective | internal/sync/checksum.go:41-44 | the 32-bit sum tells any two states apart |
| Checksum.SumsWrittenOut | internal/sync/checksum.go:27-39 | a is the sum of the window's bytes and b the sum of each byte times its distance from the end, both modulo 2^16 |
| Blocks.SplitBlocks | internal/sync/blocks.go:12-25 | the loop yields the full-size blocks in order and one short last block; nothing for a block size of zero or less |
| Blocks.SplitLosesNothing | internal/sync/blocks.go:8-25 | the blocks joined again are the data |
| Blocks.BlockAt | internal/sync/blocks.go:12-25 | block k holds exactly the bytes from k times the size up to the next boundary or the end |
| Blocks.GenerateSignatureWithBlockSize | internal/sync/signature.go:32-45 | one weak and one strong checksum per block, in block order, with the block size it was asked for |
| Delta.BuildWeakIndex | internal/sync/delta.go:41-47 | the index lists, for each weak checksum, exactly the blocks that have it, in ascending order |
| Delta.TryMatch | internal/sync/delta.go:62-76 | a window matches the lowest-numbered block whose weak and strong checksums both agree, or none |
| Delta.GenerateDelta | internal/sync/delta.go:35-108 | the sliding scan with its rolling checksum, weak index and pending literal is the declarative greedy scan, for every signature and every data |
| Delta.FastRefinesNaive | internal/sync/delta.go:27-108 | without a digest collision the scan is the one that compares bytes and copies the lowest-numbered equal block, short last block included |
| Delta.ApplyDelta | internal/sync/delta.go:122-148 | the loop concatenates literals and copied blocks, and fails exactly on a block outside the old data or a block size of zero or less |
| Refusals.AppliesIff | internal/sync/delta.go:122-148 | a delta applies exactly when each block it copies begins inside the old data, under a positive block size if any is copied |
| Delta.RoundTrip | internal/sync/delta.go:27-148 | applying the generated delta to the old data succeeds and equals the new data, for every integer block size |
| Delta.GeneratedDeltaIsNormal | internal/sync/delta.go:49-108 | no empty literal and no two adjacent literals, whatever the signature |
| Delta.AppendCostsOnlyTheTail | internal/sync/delta.go:27-108 | new data that extends the old costs at most the short last block plus the suffix in literal bytes |
| Delta.UnchangedCostsTheRemainder | internal/sync/delta.go:78-108 | an unchanged file costs exactly its length modulo the block size in literal bytes, because the short last window is never looked up |
| Delta.DeltaByteCounts | internal/pipeline/receiver.go:342-359 | the loop adds up exactly the literal and the copied bytes of an op list |
| Delta.CountsConserve | internal/pipeline/receiver.go:340-359 | literal plus matched bytes equal the size of the rebuilt file, for every delta that applies |
| Wire.ToWireDeltaOps | internal/pipeline/messages.go:42-76 | literals are compressed as one stream exactly when compression is on, the suffix is not skipped, there are literals and compression pays |
| Wire.FromWireDeltaOps | internal/pipeline/messages.go:81-113 | the wire form is decoded, and each malformed form gives its error |
| Wire.WireRoundTrip | internal/pipeline/messages.go:38-113 | decoding after encoding gives the ops back, for every op list, path and option, if decompression inverts compression |
| Wire.DecodeSlicesAPrefix | internal/pipeline/messages.go:78-113 | any compressed form that decodes hands out a contiguous prefix of the literal stream, in order |
| Wire.CompressedIff | internal/pipeline/messages.go:42-76 | a delta is compressed exactly when compression is on, the path is not to be skipped, some literal has bytes and compressing helps; its stream is then all literals compressed, each record keeping its length |
| Refusals.DecodesIff | internal/pipeline/messages.go:78-113 | a wire delta decodes exactly when its records are of the two kinds and, if compressed, its stream decompresses and is long enough for natural lengths |
| Frames.WriteFrame | internal/transport/frame.go:37-57 | an accepted frame is appended as four length bytes, the type and the payload; an oversized one writes nothing |
| Frames.ReadFrame | internal/transport/frame.go:59-79 | one read takes exactly the bytes of one frame or reports end, truncation or excess length |
| Frames.HeaderBytes | internal/transport/frame.go:37-57 | the first four bytes, most significant first, are the payload's length; the type and the payload follow |
| Refusals.FrameIsReadIff | internal/transport/frame.go:59-79 | a frame is read exactly when its header and all it announces, at most 64 MiB, are there; the error says which is missing |
| Frames.SendAndReceive | internal/transport/frame.go:37-79 | a frame written and read back arrives unchanged |
| Frames.FrameStreamRoundTrip | internal/transport/frame.go:37-79 | decoding the concatenation of any accepted frames gives those frames and a clean end |
| Frames.TruncatedStream | internal/transport/frame.go:59-79 | after any truncation exactly the wholly contained frames come back, then an error, which is the clean end only on a boundary |
| Attributes.ApplyPlainWorks | internal/sync/attributes.go:115-152 | applying attributes changes only that inode's attributes, and the selected ones become the entry's |
| Attributes.ApplyAttributesLinkWorks | internal/sync/attributes.go:61-76 | the path becomes a new symlink with the entry's target and, where known, owner; other names keep inode and content |
| Attributes.ApplyPlainAgain | internal/sync/attributes.go:18-25 | attributes that already agree are not changed by being applied again |
| Disks.Apply | internal/sync/attributes.go:115-152 | the calls in their order leave the specified file system, or on their error what those that went through leave |
| Disks.ApplyPlainTo | internal/sync/attributes.go:130-151 | mode, then times, then owner, with nothing changed on an error |
| Disks.ApplySymlinkTo | internal/sync/attributes.go:61-76 | remove, then link; on an error exactly the old name may be gone |
| Disks.ApplyOwnership | internal/sync/attributes.go:34-53 | owner and group change independently, and never when the source's ownership is unknown |
| Disks.ApplyHardLinks | internal/sync/hardlinks.go:63-84 | every member after the first is relinked in order; on an error the members before are, and the failing one is as far as it got |
| Disks.FillTemp | internal/pipeline/partial.go:54-84 | whole or in chunks, the temporary file ends up holding the data, or as much of it as fits when a write fails |
| Disks.WriteFile | internal/pipeline/partial.go:46-158 | temporary file, fill, rename; a write that fails with some bytes written leaves exactly those at the place --partial or --partial-dir asks for, if that can be made and is no directory, and otherwise no trace |
| Disks.WriteIsInstall | internal/pipeline/partial.go:46-133 | a write by parts succeeds exactly when the data fits and a single atomic replacement would succeed, and then leaves exactly what that would |
| TempWrite.WriteByParts | internal/pipeline/partial.go:46-133 | creating, filling and renaming add up to one replacement, directory times and inode numbers included |
| TempWrite.AbortLeaves | internal/pipeline/partial.go:135-158 | with any setting of --partial and --partial-dir, an aborted write leaves the bytes at every path but the temporary one, unless what was written is kept there as asked |
| Keeping.AbandonedExactly | internal/pipeline/partial.go:135-158 | the same of the abandoning itself: the temporary file is moved to its place, or gone, and nothing else changes |
| Directories.MkdirAllIff | internal/pipeline/partial.go:146-152 | a directory can be made exactly when nothing at it or above it is anything but a directory |
| Resume.BrokenWriteIsKept | internal/pipeline/partial.go:135-158 | in any interleaving a write that breaks leaves that prefix of the entry's new content at its place, or nothing |
| Resume.KeptBytesAreNotSentAgain | internal/pipeline/receiver.go:234-247 | a later run with the same --partial-dir takes the kept prefix as its basis and sends no more than the missing bytes and one short block |
| Itemize.FileSilentIff | internal/pipeline/itemize.go:95-133 | a file goes unreported exactly when it existed with the same size, bytes and selected attributes |
| Itemize.DirSilentIff | internal/pipeline/itemize.go:135-159 | a directory goes unreported exactly when it existed with the selected attributes |
| Itemize.SymlinkSilentIff | internal/pipeline/itemize.go:161-184 | a symlink goes unreported exactly when target and owner agree |
| Itemize.FileCodeSays | internal/pipeline/itemize.go:95-133 | each position of a file's code: new bytes, size, time, permissions, owner, group |
| Itemize.DirCodeSays | internal/pipeline/itemize.go:135-159 | each position of a directory's code |
| Itemize.SymlinkCodeSays | internal/pipeline/itemize.go:161-184 | each position of a symlink's code |
| Itemize.LineText | internal/pipeline/itemize.go:192-231 | a line's text: the code with -i, the path, and a symlink's target |
| Itemize.LinesTell | internal/pipeline/itemize.go:205-231 | a line is written exactly when lines are asked for and there is something to report, and an itemized one gives back its code and, but for symlinks, its path |
| Effects.CommitEffect | internal/pipeline/receiver.go:312-333 | committing an entry leaves exactly the new bytes and the selected attributes at its path, and works on that path alone |
| Effects.RebuiltIsFinal | internal/pipeline/receiver.go:249-295 | without collisions the exchange rebuilds the entry's final content, in every append mode |
| Runs.NothingAheadTouched | internal/pipeline/receiver.go:90-119 | after any number of entries no later entry's path has been touched |
| Runs.EverythingBehindDone | internal/pipeline/receiver.go:90-119 | after any number of entries every one so far is in its final form, directory attributes apart |
| FinalPasses.LinkPassHolds | internal/pipeline/receiver.go:121-127 | the link pass links every member to its group's first and leaves every other path's inode and content |
| FinalPasses.DirPassHolds | internal/pipeline/receiver.go:129-137 | the reverse pass leaves every listed directory with its own selected attributes, children's changes notwithstanding |
| EndToEnd.RunSettles | internal/pipeline/receiver.go:46-149 | after a successful run every entry has its final content, attributes or target |
| EndToEnd.SourceArrives | internal/pipeline/receiver.go:223-338 | without an append mode every transferred path holds exactly the source's bytes |
| EndToEnd.SecondaryContent | internal/pipeline/receiver.go:71-79 | a hard-link member ends with its group's first member's source bytes |
| EndToEnd.UnlistedUnchanged | internal/pipeline/receiver.go:43-45 | kind, content, target and inode of every path the list does not name stay |
| EndToEnd.HardLinksExact | internal/pipeline/receiver.go:121-127 | two listed regular paths name one inode afterwards exactly when they are in one group |
| OneFile.OneFileIsSound | internal/pipeline/receiver.go:46-149 | for one file into an empty directory every assumption of the whole-run theorems holds, whatever its bytes and the options that write |
| OneFile.OneFileArrives | internal/pipeline/receiver.go:223-338 | and that run succeeds and leaves the file with those bytes |
| Welcome.EntryIff | internal/pipeline/receiver.go:153-338 | an entry succeeds exactly when nothing but directories lies above its path, what lies at it can give way, and the source has what is asked of it; a dry run asks only what it looks at |
| Success.RunSucceedsIff | internal/pipeline/receiver.go:46-149 | a run succeeds exactly when every entry and every secondary member meets that condition at the start: new and existing files, symlinks and members, every append mode, dry or not, aliased or not |
| Deliveries.VacantIsWelcoming | internal/pipeline/receiver.go:46-149 | into a destination with nothing in it every well-formed list the source can supply meets it |
| Deliveries.SyncLocalSucceedsIff | internal/cli/sync.go:271-306 | without failures from outside syncLocal returns nil exactly then, however its sides interleave |
| Deliveries.WelcomeFilesArrive | internal/cli/sync.go:271-306 | and every transferred path then holds the source's bytes |
| DryRun.DryRunSimulates | internal/pipeline/receiver.go:37-41 | if the real run would succeed the dry run succeeds with the same messages, lines and counts, and leaves the file system as it is |
| Failures.DryRunWritesNothing | internal/pipeline/receiver.go:37-41 | no dry run changes the file system, whatever it is sent and however it ends |
| Failures.SuccessLeavesTheResult | internal/pipeline/receiver.go:46-149 | where the specification succeeds, the account of what each failing call leaves ends in its result |
| Aftermath.ForeignBytesAreKept | internal/pipeline/receiver.go:46-149 | whatever the other side sends, and however the receiver ends, every path that no entry, partial file or member of the list lies at keeps its bytes |
| Refusals.OnlyInTurn | internal/pipeline/messages.go:179-193 | a signature is answered, and a delta read, only for the file each side is at |
| Refusals.ListComesFirst | internal/pipeline/receiver.go:46-60 | nothing is received unless a list comes first |
| Idempotence.SecondRunIsSound | internal/pipeline/receiver.go:81-88 | what a successful run leaves is an unaliased, collision-free place to run again |
| SecondRun.SecondRunSucceeds | internal/pipeline/receiver.go:46-149 | on what a successful run leaves, a second run succeeds: every entry, every relinking and every directory |
| SecondRun.SyncingAgainChangesNothing | internal/pipeline/receiver.go:81-137 | it rewrites no file and changes no bytes, prints one line per hard-link member and nothing else, and sends of each file only its short last block |
| Append.AppendExtends | internal/pipeline/sender.go:103-123 | --append on a shorter file keeps it and adds the tail; that is the source exactly when the old bytes are a prefix of it |
| Append.AppendVerifyGivesSource | internal/pipeline/receiver.go:216-222 | --append-verify on a shorter file, and either mode on a new one, yields the source |
| Append.AppendNeverShortens | internal/pipeline/receiver.go:249-264 | no append-mode run shortens a file |
| Append.RepeatedAppendSkips | internal/pipeline/receiver.go:253-256 | a repeat run skips every file |
| PartialDirs.PartialEntryExact | internal/pipeline/receiver.go:234-295 | with any partial directory an entry's exchange ends with the source's bytes exactly unless the partial file already is the source and something else is at the destination, or the partial file lies at the destination and differs from the source |
| PartialDirs.EveryFileLands | internal/pipeline/receiver.go:90-137 | over a whole run with any partial directory that keeps clear of the listed paths, aliased destination or not, every transferred path ends with its final content, or keeps what it held where the partial file already was the source |
| PartialDirs.SourceArrivesUnlessHeld | internal/pipeline/receiver.go:223-338 | so outside the append modes a run leaves the source's bytes at a path exactly unless it was held back with other bytes |
| PartialMisses.FinishedPartialHolds | internal/pipeline/receiver.go:292-295 | the first failing case through the whole exchange: such a destination keeps its old bytes, without an error |
| PartialMisses.OwnDirectoryTakes | internal/pipeline/partial.go:122-129 | the second: with --partial-dir=. the new file is removed again, without an error |
| PartialMisses.FinishedIsTaken | internal/pipeline/partial.go:122-129 | where an entry's partial file lies at another entry's path, that path loses its bytes exactly when the entry used and then dropped it |
| PartialMisses.PartialDirectoryTakesFinishedFile | internal/pipeline/partial.go:122-129 | a run of a, a/f and f with --partial-dir=a in which the finished a/f is lost, without an error |
| Accounting.EntriesConserved | internal/pipeline/stats.go:66-68 | regular, directory and symlink counts, hard-link members and ignored symlinks add up to the number of entries |
| Accounting.BytesConserved | internal/pipeline/receiver.go:297-310 | in every successful run, dry or not, with a partial directory or not, aliased or not, literal plus matched bytes equal the total file size, but for files an append mode skipped |
| Accounting.CollisionlessIsEnough | internal/pipeline/receiver.go:297-310 | for that it is enough that nothing collides at the start, if the run is dry or its partial files keep clear of the listed paths |
| Tallies.RunTallies | internal/pipeline/receiver.go:292-310 | created files, directories and symlinks are those absent at the start, transferred files the absent ones and those whose content changes, and the sizes are theirs, in every successful run |
| Replay.ReplayFollows | internal/cli/sync.go:398-428 | the receiver fed what a run delivered follows that run step by step |
| Replay.BatchReplay | internal/cli/sync.go:398-428 | the recorded messages applied to any look-alike destination give the tree the live run would have made there |
| Replay.BatchFileReplays | internal/cli/sync.go:275-281 | the same from the bytes of the batch file |
| Lockstep.EveryInterleaving | internal/cli/sync.go:271-306 | in every interleaving, with failures anywhere, the receiver is at a point of the sequential run and the pipes hold what the two positions allow |
| Lockstep.NextTransfer | internal/pipeline/sender.go:57-60 | both sides select the same next entry: the first from here on that is a regular file and no secondary member |
| Lockstep.PlaceStays | internal/pipeline/receiver.go:312-333 | each step of putting a file in place keeps the disk where the sequential run would have it |
| Contents.AfterIsValid | internal/pipeline/receiver.go:90-119 | every run, also with partial directories, keeps the destination a tree |
| Interleavings.FramesAreExpected | internal/pipeline/messages.go:179-193 | at most one frame is in flight, and it is of the type and for the path its reader waits for |
| Interleavings.NoDeadlock | internal/cli/sync.go:287-299 | while one side has not returned some side can step |
| Interleavings.ClosingReleases | internal/cli/sync.go:289-299 | once one side has returned the other is never blocked |
| Interleavings.EveryScheduleEnds | internal/cli/sync.go:271-306 | whoever schedules and breaks what, both sides return |
| Interleavings.SyncLocalIsRun | internal/cli/sync.go:271-306 | if both return nil the disk, counts, lines and recorded stream are those of the one sequential run |
| Interleavings.SourceArrivesInEveryInterleaving | internal/cli/sync.go:271-306 | if both return nil every transferred path holds exactly the source's bytes |
| Interleavings.OthersKeptInEveryInterleaving | internal/cli/sync.go:271-306 | and no path outside the list has changed |
| Interleavings.RecordedBatchReplays | internal/cli/sync.go:275-281 | what was recorded in any interleaving replays on a look-alike to a twin of the live tree |
| Interleavings.OutcomeIsDetermined | internal/cli/sync.go:271-306 | without outside failures the result is nil exactly when the sequential run succeeds, whatever the interleaving |
| Atomic.FilesAreAtomic | internal/pipeline/partial.go:9-158 | at every step of every interleaving, with any partial directory that keeps clear of the listed paths, each transferred path holds its old or its complete new bytes, finished files stay finished, and only --partial without a directory leaves a prefix after a failed write |
| Recovery.SafeInEveryInterleaving | internal/pipeline/partial.go:116-158 | at every step of every interleaving, after any failure, the destination is a tree and no more aliased than it was |
| Recovery.AbortedRunCanBeRepeated | internal/pipeline/partial.go:135-158 | a later run that succeeds on what any aborted one left settles every entry, and outside the append modes puts the source's bytes at every transferred path |
| Members.MembersInEveryInterleaving | internal/sync/hardlinks.go:63-84 | at every step of every interleaving a secondary member's path has the inode, kind and bytes it started with, or names nothing, or is one file with its group's first, as its own unlinking and relinking are ahead, between or done; a receiver that failed left it at the stage of the failing step |
| Presence.TransferredRemains | internal/pipeline/partial.go:116-133 | a transferred path that named something names something at every step, as long as the receiver has not failed |
| Presence.AbsentIffSecondary | internal/sync/hardlinks.go:75-81 | in every interleaving of a run that succeeds, a listed file that was there is there after every step exactly when it is no secondary member |
| Rehearsal.RelinkIsReached | internal/sync/hardlinks.go:75-81 | every run that succeeds and has a secondary member that was there has a schedule up to the moment at which that member is absent |
| Rehearsal.BIsAbsentForAWhile | internal/sync/hardlinks.go:75-81 | such a run written out: two names of one file onto a destination that has the second |
| Rehearsal.NamesCanBeFound | internal/pipeline/partial.go:36-44 | there are choices of temporary names that are free and listed nowhere |
| Sides.ReceiveDirectory | internal/pipeline/receiver.go:153-175 | one directory entry: check, create, count, report |
| Sides.ReceiveLink | internal/pipeline/receiver.go:180-209 | one symlink entry, or nothing at all without --links |
| Sides.PrepareFile | internal/pipeline/receiver.go:224-265 | what is there, which basis, which append action and which signature |
| Sides.CommitFile | internal/pipeline/receiver.go:312-333 | parent, write, partial file dropped, attributes |
| Sides.CompleteFile | internal/pipeline/receiver.go:279-338 | rebuild, count, write and report, as the specification has it |
| Sides.ReceiveRegular | internal/pipeline/receiver.go:223-338 | one signature written and one delta read, and the specified state |
| Sides.ReceiveEntries | internal/pipeline/receiver.go:90-119 | the loop over the list is the specification's replay of the inbox, entry by entry, up to the first that fails |
| Sides.StampDirectories | internal/pipeline/receiver.go:129-137 | going back over the collected directories is the specified pass |
| Sides.LinkGroups | internal/pipeline/receiver.go:121-127 | the groups in order are the specified pass |
| Sides.RunReceiver | internal/pipeline/receiver.go:46-149 | the whole receiver on any inbox: succeeds exactly when the specification does, with its disk, counts, lines and signatures; leaves what the calls that went through leave when it fails, and nothing at all in a dry run |
| Sides.TakeOps | internal/pipeline/receiver.go:268-277 | the delta frame is decoded and checked, or the error for its type, form or path |
| Sides.Counted.Send | internal/pipeline/stats.go:26-30 | a write passes through and its size is added up |
| Sides.Counted.Receive | internal/pipeline/stats.go:20-24 | a read passes through and its size is added up |
| Sides.BuildAppendTail | internal/pipeline/sender.go:111-123 | fails exactly when the source is shorter than what is trusted; else the ops, replayed on any file of the trusted length, keep it and add the source's tail, at the cost of that tail |
| Sides.AnswerSignature | internal/pipeline/sender.go:62-97 | the answer to one signature, or the error for a wrong path, type or source |
| Sides.RunSender | internal/pipeline/sender.go:45-101 | the sender's loop reads one signature and writes one delta per transferred entry, in order, up to the first that fails |
| Sides.SidesMakeTheRun | internal/pipeline/sender.go:27-101 | each loop, fed what the other writes, writes what the other is fed, and together they are the sequential run |
| HardLinks.DetectHardLinks | internal/sync/hardlinks.go:24-57 | fails exactly when a listed regular file cannot be examined, else canonical groups, the map being walked in any order |
| HardLinks.CanonicalIsUnique | internal/sync/hardlinks.go:43-56 | sorted disjoint groups in which two files are together exactly when they are one inode are unique |
| HardLinks.IndexByInode | internal/sync/hardlinks.go:25-41 | the map holds for every key the paths that have it, in list order |
| Filter.MatchIffAssignment | internal/sync/filter.go:83-109 | a pattern matches exactly when runs of segments can be assigned to its stars so that everything aligns |
| Filter.AnywhereIsStarsInFront | internal/sync/filter.go:74-80 | matching at any depth is matching from the root with stars in front |
| Filter.UnanchoredMatchesLastName | internal/sync/filter.go:50-81 | a pattern that compiles unanchored matches exactly on the final path component |
| Filter.MatchesRule | internal/sync/filter.go:62-81 | the loop over starting depths decides whether the rule matches |
| Filter.Compile | internal/sync/filter.go:119-138 | anchor, directory mark and pattern, or the error for an empty segment |
| Patterns.TextMeans | internal/sync/filter.go:62-138 | with a slash in front or inside, or two stars, a pattern's names align with the whole path from the root; a plain name is matched against the last component; a slash at the end adds that the entry is a directory |
| Patterns.RefusedIff | internal/sync/filter.go:126-132 | a pattern is refused exactly when it is empty, a lone slash, or has two slashes in a row |
| Patterns.EveryPatternIsSpelled | internal/sync/filter.go:119-138 | every other text is names between slashes with those two marks |
| Filter.FirstMatchWins | internal/sync/filter.go:282-291 | an entry is dropped exactly when an exclude rule matches and no earlier rule does |
| Filter.IncludedBy | internal/sync/filter.go:284-291 | the loop decides by the first matching rule |
| Filter.FilterEntries | internal/sync/filter.go:294-302 | the kept entries are the included ones |
| Filter.KeptInOrder | internal/sync/filter.go:293-302 | exactly the included entries are kept, each once and in order |
| Walk.Walk | internal/sync/walk.go:85-139 | fails exactly without a root, else lists every visited path once in byte order |
| Walk.ListingIsUnique | internal/sync/walk.go:130-136 | the order in which directories are read decides nothing |
| Walk.OpenTransfer | internal/pipeline/sender.go:28-47 | walking, filtering and, under -H, grouping fail exactly without a root, else yield the listing's included entries and their canonical groups, always a well-formed list |
| Walk.SentListIsWellFormed | internal/pipeline/sender.go:28-47 | whatever the tree, options and rules, with -H or without, for every list that may be sent: parents first, nothing below a non-directory, groups disjoint and listed |
| Walk.SentListIsUnique | internal/pipeline/sender.go:28-47 | and no other list may be |
| Walk.TreeArrives | internal/pipeline/sender.go:16-23 | from source tree to destination every listed regular file, linked or not, arrives with its own bytes |
| Walk.TreeLinksExact | internal/sync/hardlinks.go:11-14 | with groups, two listed files are one file at the destination exactly when they are at the source |
| TreeAttributes.WhatIsListed | internal/sync/walk.go:90-128 | with -r everything below the root is listed, with -d the root's own entries, with neither those that are no directories |
| TreeAttributes.ListedAsItIs | internal/sync/walk.go:50-74 | kind, size, target, mode, time and owner of every listed entry are those of what is at the source |
| TreeAttributes.TreeAttributesArrive | internal/sync/attributes.go:115-152 | every listed file and directory, hard-linked or not, ends with the selected ones of the source's permission bits, time, owner and group |
| TreeAttributes.TreeSymlinksArrive | internal/sync/attributes.go:61-76 | every listed symlink ends with the source's target and, where selected, owner and group |
| Ordering.ParentComesFirst | internal/sync/walk.go:130-136 | in byte order of rendered paths a directory precedes everything in it |
| Lines.ReadLineFrom | internal/daemon/protocol.go:52-68 | byte by byte up to a newline, trailing carriage returns dropped, or end of stream or excess length |
| Lines.WriteLine | internal/daemon/protocol.go:38-41 | what is appended is read back as the line, whatever follows, exactly when the line is legible |
| Lines.LineRoundTrip | internal/daemon/protocol.go:38-68 | a written line is read back, the rest untouched, exactly when it has no newline, at most 8192 bytes and no carriage return at its end |
| Lines.MixedStreamRoundTrip | internal/daemon/protocol.go:22-36 | a stream mixing lines and frames, read with the right expectations, is cut at exact boundaries |
| Daemon.AuthIffSecretIsKnown | internal/daemon/auth.go:111-140 | a response is accepted exactly when it is an allowed user, a space and the hash of that user's secret and the challenge |
| Daemon.OwnGreetingIsAccepted | internal/daemon/protocol.go:70-103 | the greeting one side writes is one the other accepts, as version 31.0 |
| Daemon.ServerIsGuarded | internal/daemon/server.go:14-27 | whatever a client sends, a transfer runs only for a configured module that asks for no password or whose challenge was written and later answered, in a line the server read, with an allowed user's secret; a read-only module never runs Receiver |
| Daemon.AnswerWasRead | internal/daemon/auth.go:95-146 | any answer the server goes by is a line it read after writing the challenge |
| Requests.ModuleWasNamed | internal/daemon/protocol.go:135-140 | the module served is the one named by a line the server read |
| Requests.DirectionWasAsked | internal/daemon/session.go:80-108 | the direction carried out, and whether dry, is the one a later line asked for, and never a put to a read-only module |
| Requests.GreetingIsRead | internal/daemon/protocol.go:77-103 | every version and subprotocol is read back from its greeting, with or without further words |
| Requests.GreetingIsRefused | internal/daemon/protocol.go:77-103 | a greeting without the prefix, without a version, or with anything but numbers for it is refused |
| Requests.ListingIsServed | internal/daemon/protocol.go:127-132 | asked for a list the server writes its greeting, every line in order, and the end |
| Refusals.ClientBelieves | internal/daemon/auth.go:152-185 | a client goes on only at the lines it waits for |
| Refusals.DoneWasRead | internal/daemon/session.go:36-46 | a server that returns nil without storing anything was told the client is done, or has listed its modules |
| Parties.ServeGreeting | internal/daemon/protocol.go:114-140 | the calls in their order are a run of the server's machine up to the module, a listing or a refusal |
| Parties.ServeAuth | internal/daemon/auth.go:95-146 | likewise for authentication, which succeeds only with a clearance |
| Parties.ServeModule | internal/daemon/session.go:80-108 | likewise for direction and acknowledgement; a read-only module never reaches Put |
| Parties.ServeConn | internal/daemon/server.go:14-27 | the three phases are one run of the machine and hand over only a cleared module |
| Parties.DialAuth | internal/daemon/auth.go:152-185 | the loop answers challenges until OK, as the client's machine does |
| Parties.DialClient | internal/daemon/client.go:16-30 | the client's phases are one run of its machine |
| Sessions.EverySession | internal/daemon/session.go:80-171 | in every interleaving, with any buffering and failures anywhere, the two sides' positions and what is buffered fit each other |
| Sessions.PutClientWaitsForServer | internal/daemon/session.go:28-34 | a Put client returns nil only after the server's Receiver returned nil, with the whole transfer on the server's disk |
| Sessions.GetIsComplete | internal/daemon/session.go:28-34 | a Get client returns nil only with the whole transfer on its disk, and the server only after the client did |
| SessionOutcome.SessionSucceedsIff | internal/daemon/session.go:80-171 | without failures from outside every session that ends comes out the same: both sides return nil exactly when the module exists, lets the client in and allows the direction, and the transfer succeeds |
| SessionOutcome.SuccessIsDeserved | internal/daemon/server.go:14-27 | and with any failures a session in which both return nil was permitted and its transfer succeeded |
| SessionOutcome.ResponseIsAccepted | internal/daemon/auth.go:95-185 | what the client answers to a challenge is accepted exactly for an authorised client |
| SessionOutcome.AuthorisedIff | internal/daemon/auth.go:95-185 | an allowed user with that user's secret is authorised, and with a hash that tells secrets apart nobody else |
| SessionOutcome.PermittedSessionSucceeds | internal/daemon/session.go:80-171 | a permitted transfer that succeeds has a session that carries it out |
| Sessions.BoundariesAreExact | internal/daemon/protocol.go:22-36 | no read ever meets a frame where a line is due or a line where a frame is due |
| SessionBytes.EveryLogIsFaithful | internal/daemon/protocol.go:22-36 | in every session each direction delivers what was written, in order, to reads that ask for what comes, the rest still buffered |
| SessionBytes.BytesAreCutExactly | internal/daemon/protocol.go:22-68 | the bytes of everything one side wrote, read by the kinds the other asked for, are exactly the lines and frames that one read, followed by the bytes of what is buffered |
| Sessions.SessionNeverStalls | internal/daemon/session.go:73-79 | with room for one item each way some side can go on until both have returned |
| Sessions.HangingUpReleases | internal/daemon/server.go:33-55 | once one side has closed the connection the other is never blocked |
| SessionEnds.StepsAreBounded | internal/daemon/session.go:73-171 | no session takes more than 18 steps per entry, 4 per line of the listing, and 80 |
| SessionEnds.EverySessionEnds | internal/daemon/session.go:73-171 | whoever schedules and breaks what, both sides return |

## Left out

- Sides.CommitFile: no write call fails in the methods of Sides; Disks.WriteFile has writes that fail after any number of bytes, and LocalSync's ReceiverFault has them at every step.
- Parties.ServeModule: ends where the connection is handed over; Sides.RunSender and Sides.RunReceiver are what runs then, on a connection of frames.
- Parties.ServeConn: likewise; the done line at the end is in Daemon's machines only.
- Parties.DialClient: likewise for the client.
- PartialDirs.SourceArrivesUnlessHeld: where a partial file does lie at a listed path, the condition is stated entry by entry (PartialDirs.PartialEntryExact, PartialMisses.FinishedIsTaken) and not over the run.
- Frames cross the two pipes and the daemon connection as units; how they lie on the byte stream is Frames, Lines and SessionBytes.
- A symbolic link in the middle of a path, or at the end of one that is read or changed through, is refused instead of followed; a chmod or chtimes through a link fails.
- Permissions are recorded but never refuse anything; the umask and the sticky, setuid and setgid bits are not modelled.
- Integers of the source that are 64 bits wide are unbounded here: block indices times block size, sizes, counters, and the lengths in a hostile wire delta near 2^63. The 32-bit checksum arithmetic is modelled exactly.
- A negative trusted length in an append signature makes the source panic; here it is an error. An empty hard-link group, which panics too, is skipped.
- Modification times of a temporary file are those of its creation: later writes to it do not restamp it.
- atime, which is set to the modification time, is not part of an inode.
- The flags of AttrResult, which no caller reads.
- Reads of the source are of one unchanging state; a source that changes during the run is not modelled beyond a read that fails.
- MD5, MD4, zlib, gob and path.Match on one segment are parameters.
- Special files, Windows variants, sockets, subprocesses, password prompts, environment, configuration files and URLs.
- Filter rules from files, merge files and the --filter line syntax: only compiled rules are modelled.
- The lines of a module listing, and names, users, hashes and quoted texts that contain newlines or are too long to be read back.
- White space in daemon lines is ASCII white space.
- Progress lines, statistics formatting, rates, and elapsed time.
- Several clients at once: connections share nothing but the file system.
