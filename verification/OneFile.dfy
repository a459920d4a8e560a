/**
 * The smallest transfer: one file into an empty directory. The assumptions of
 * the whole-run theorems hold together, and the run succeeds, for every file
 * and every choice of options that writes.
 */
module OneFile {
  import opened Prelude
  import opened FileSystem
  import opened Entries
  import opened Attributes
  import opened Blocks
  import opened Delta
  import opened Receiver
  import opened SyncRun
  import opened Effects
  import opened Runs
  import opened EndToEnd
  import Wire

  /** A destination with nothing in it. */
  function Empty(meta: Meta): FS {
    FS(map[[] := 0], map[0 := Dir(meta)], 1, 0)
  }

  predicate CopiesOneFile(job: Job, name: string, data: Bytes) {
    && |job.list.entries| == 1 && job.list.groups == []
    && job.list.entries[0].path == [name] && job.list.entries[0].kind == Regular
    && job.src == map[[name] := data]
    && job.cfg.dest == [] && Plain(job.cfg)
  }

  lemma EmptyIsValid(meta: Meta)
    ensures Valid(Empty(meta))
  {
  }

  lemma NothingThere(meta: Meta, name: string)
    ensures Lookup(Empty(meta), [name]) == None && Lstat(Empty(meta), [name]) == Missing
    ensures Parent([name]) == []
  {
    assert Lstat(Empty(meta), []) == Present(Dir(meta));
  }

  /** The hypotheses: a list as Walk sends it, an unaliased destination, and no collision, as there is nothing to collide with. */
  lemma OneFileIsSound(job: Job, meta: Meta, name: string, data: Bytes)
    requires CopiesOneFile(job, name, data) && Wire.Inverts(job.cfg.codec)
    ensures Sound(job, Empty(meta)) && Honest(job, Empty(meta))
  {
    EmptyIsValid(meta);
    NothingThere(meta, name);
    assert At(job.cfg, Entry(job, 0)) == [name];
    assert Split([], DEFAULT_BLOCK_SIZE) == [];
  }

  lemma OneFileIsPrepared(job: Job, meta: Meta, name: string, data: Bytes)
    requires CopiesOneFile(job, name, data)
    ensures Transfers(job.list, Entry(job, 0)) && Where(job, 0) == [name]
    ensures Prepare(job.cfg, Entry(job, 0), Empty(meta))
         == Ok(Plan(None, false, [], AppendNone, Sign(job.cfg.digest, [], DEFAULT_BLOCK_SIZE)))
  {
    NothingThere(meta, name);
    assert At(job.cfg, Entry(job, 0)) == [name];
  }

  lemma OneFileIsCommitted(job: Job, meta: Meta, name: string, data: Bytes, plan: Plan)
    requires CopiesOneFile(job, name, data) && plan.was.None? && !plan.usedPartial && plan.action == AppendNone
    ensures Commit(job.cfg, Entry(job, 0), plan, data, Empty(meta)).Ok?
  {
    var cfg, e, fs := job.cfg, Entry(job, 0), Empty(meta);
    assert At(cfg, e) == [name];
    EmptyIsValid(meta);
    NothingThere(meta, name);
    assert Install(cfg.proc, fs, [name], data).Ok?;
    InstallWorks(cfg.proc, fs, [name], data);
    hide Valid, WorksOn, Install;
    assert WriteContent(cfg, e, plan, data, fs) == Ok(Install(cfg.proc, fs, [name], data).value);
  }

  /** And the run succeeds, leaving the file. */
  lemma OneFileArrives(job: Job, meta: Meta, name: string, data: Bytes)
    requires CopiesOneFile(job, name, data) && Wire.Inverts(job.cfg.codec)
    ensures Run(job, Empty(meta)).Ok?
    ensures ContentAt(Final(job, Empty(meta)), [name]) == Some(data)
  {
    var cfg, e, fs := job.cfg, Entry(job, 0), Empty(meta);
    OneFileIsSound(job, meta, name, data);
    OneFileIsPrepared(job, meta, name, data);
    var plan := Prepare(cfg, e, fs).value;
    NothingThere(meta, name);
    assert SourceOf(job, e) == data;
    var msg := Reply(cfg, job.src, e, SignatureFor(e, plan));
    assert msg.Ok? by {
      hide DeltaOf, Wire.Encode;
    }
    AnswerIsFinal(job, e, fs, plan, msg.value);
    OneFileIsCommitted(job, meta, name, data, plan);
    assert ContentAt(fs, [name]) == None;
    hide Reply, Prepare, ReadDelta, NewData, Commit, Honest, Sound, ApplyAttributes;
    assert SyncEntry(job, e, Start(job, fs)).Ok?;
    assert After(job, fs, 0) == Ok(Start(job, fs));
    assert Run(job, fs).Ok? by {
      NoPasses(job, After(job, fs, 1).value.st.fs);
    }
    RunSettles(job, fs, 0);
  }

  lemma NoPasses(job: Job, fs: FS)
    requires |job.list.entries| == 1 && job.list.groups == [] && job.list.entries[0].kind == Regular
    ensures Passes(job.cfg, job.list, fs) == Ok(fs)
  {
    assert DirPass(job.cfg, job.list.entries, 0, fs) == Ok(fs);
  }
}
