/** Success theorems put together: a fresh destination, every schedule, and the source's bytes in place. */
module Deliveries {
  import opened Prelude
  import opened FileSystem
  import opened Entries
  import opened Receiver
  import opened SyncRun
  import opened LocalSync
  import opened Effects
  import opened Runs
  import opened Contents
  import opened PartialDirs
  import opened Directories
  import opened Welcome
  import opened Success
  import opened EndToEnd
  import opened Interleavings

  /** Nothing lies below the destination, and nothing but directories at it and above. */
  ghost predicate Vacant(job: Job, start: FS) {
    Makeable(start, job.cfg.dest) && forall q :: q in start.names ==> !(job.cfg.dest < q)
  }

  /** The source has every file to be transferred, and every symlink has a target. */
  predicate Supplied(job: Job) {
    forall i :: 0 <= i < |job.list.entries| ==>
      && (Transfers(job.list, Entry(job, i)) ==> Entry(job, i).path in job.src)
      && (Entry(job, i).kind == Symlinked && job.cfg.attrs.links ==> Entry(job, i).target != "")
  }

  lemma NothingBelow(job: Job, start: FS, p: Path)
    requires Vacant(job, start) && p != []
    ensures var q := job.cfg.dest + p; q !in start.names && Makeable(start, q) && Makeable(start, Parent(q)) && Clearable(start, q) && ContentAt(start, q) == None
  {
    var q := job.cfg.dest + p;
    assert job.cfg.dest < q && Parent(q) == job.cfg.dest + p[..|p| - 1];
    forall a | a <= q && a in start.names ensures IsDir(start, a) {
      assert a <= job.cfg.dest;
    }
    assert Parent(q) <= q;
  }

  /** Into a destination with nothing in it every list succeeds that the source can supply. */
  lemma VacantIsWelcoming(job: Job, start: FS)
    requires WellFormed(job.list) && Valid(start) && Vacant(job, start) && Supplied(job) && job.cfg.ropts.partialDir.None?
    ensures Welcoming(job, start)
  {
    forall i | 0 <= i < |job.list.entries| ensures EntryWelcome(job, Entry(job, i), start) {
      assert Entry(job, i).path != [];
      hide WellFormed, Valid, Makeable, Clearable;
      NothingBelow(job, start, Entry(job, i).path);
      hide Vacant;
    }
    if !job.cfg.ropts.dryRun {
      forall h, j | 0 <= h < |job.list.groups| && 1 <= j < |job.list.groups[h]| ensures MemberWelcome(job, start, h, j) {
        assert Listed(job.list, job.list.groups[h][j]) && Listed(job.list, job.list.groups[h][0]);
        hide Valid, Makeable, Clearable;
        NothingBelow(job, start, job.list.groups[h][j]);
        NothingBelow(job, start, job.list.groups[h][0]);
        hide Vacant;
      }
    }
  }

  /** Without failures from outside, syncLocal returns nil exactly when the destination is welcoming, however its sides interleave. */
  lemma SyncLocalSucceedsIff(setup: Setup, schedule: seq<Choice>)
    requires WellFormed(setup.job.list) && Valid(setup.start) && Aloof(setup.job) && Collisionless(setup.job, setup.start)
    requires TempFree(setup) && Faultless(schedule) && BothReturned(Exec(setup, schedule))
    ensures Outcome(Exec(setup, schedule)) <==> Welcoming(setup.job, setup.start)
  {
    hide WellFormed, Valid, Aloof, Collisionless, TempFree, Welcoming, Run, Exec;
    RunSucceedsIff(setup.job, setup.start);
    OutcomeIsDetermined(setup, schedule);
  }

  /** And on an unaliased one without a partial directory it then leaves the source's bytes at every transferred path. */
  lemma WelcomeFilesArrive(setup: Setup, schedule: seq<Choice>, i: nat)
    requires Sound(setup.job, setup.start) && Honest(setup.job, setup.start) && Welcoming(setup.job, setup.start) && !setup.job.cfg.ropts.AppendMode()
    requires TempFree(setup) && Faultless(schedule) && BothReturned(Exec(setup, schedule))
    requires i < N(setup) && Transfers(setup.job.list, Entry(setup.job, i))
    ensures Outcome(Exec(setup, schedule)) && Entry(setup.job, i).path in setup.job.src
    ensures ContentAt(Exec(setup, schedule).r.st.fs, Where(setup.job, i)) == Some(setup.job.src[Entry(setup.job, i).path])
  {
    SoundIsClear(setup.job, setup.start);
    assert Aloof(setup.job);
    assert WellFormed(setup.job.list) && Valid(setup.start) && Collisionless(setup.job, setup.start) by {
      ClearIs(setup.job, setup.start);
    }
    hide Sound, Honest, WellFormed, Valid, Aloof, Collisionless, TempFree, Welcoming, Run, Exec;
    SyncLocalSucceedsIff(setup, schedule);
    SourceArrivesInEveryInterleaving(setup, schedule, i);
  }

  lemma ClearIs(job: Job, fs: FS)
    requires Clear(job, fs)
    ensures WellFormed(job.list) && Valid(fs) && Collisionless(job, fs)
  {
  }
}
