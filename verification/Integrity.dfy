/** Stored blobs carry their own name, never change, and stand behind every file row. */
module Integrity {
  import opened Prelude
  import opened Tables
  import opened Machine
  import opened Invariants

  ghost predicate BlobsNamed(cfg: Config, disk: Disk) {
    forall b :: b in disk.blobs ==> cfg.hash(disk.blobs[b]) == b.name
  }

  predicate RowStored(cfg: Config, disk: Disk, meta: FileMeta) {
    Stored(cfg, disk, meta.tenant, meta.contentHash)
  }

  ghost predicate RowsStored(cfg: Config, disk: Disk, files: map<string, FileMeta>) {
    forall key :: key in files ==> RowStored(cfg, disk, files[key])
  }

  /** Deleted rows and rows about to be written back by a half-done delete are included. */
  ghost predicate StoredInv(cfg: Config, s: State) {
    && BlobsNamed(cfg, s.disk)
    && RowsStored(cfg, s.disk, s.db.files)
    && (s.txn.Ready? ==> RowsStored(cfg, s.disk, s.txn.tables.files))
    && forall r :: r in s.ops && s.ops[r].Deleting? ==> RowStored(cfg, s.disk, s.ops[r].meta)
  }

  predicate RowBacked(cfg: Config, disk: Disk, meta: FileMeta) {
    RowStored(cfg, disk, meta) && |disk.blobs[BlobAt(cfg, meta.tenant, meta.contentHash)]| == meta.size
  }

  ghost predicate RowsBacked(cfg: Config, disk: Disk, files: map<string, FileMeta>) {
    forall key :: key in files ==> RowBacked(cfg, disk, files[key])
  }

  /** The same with the blob's length. */
  ghost predicate IntegrityInv(cfg: Config, s: State) {
    && StoredInv(cfg, s)
    && RowsBacked(cfg, s.disk, s.db.files)
    && (s.txn.Ready? ==> RowsBacked(cfg, s.disk, s.txn.tables.files))
    && forall r :: r in s.ops && s.ops[r].Deleting? ==> RowBacked(cfg, s.disk, s.ops[r].meta)
  }

  ghost predicate BlobsFixed(disk: Disk, disk': Disk) {
    forall b :: b in disk.blobs ==> b in disk'.blobs && disk'.blobs[b] == disk.blobs[b]
  }

  ghost predicate CollisionFree(cfg: Config) {
    forall x, y :: cfg.hash(x) == cfg.hash(y) ==> x == y
  }

  /** What collision freedom is needed for: a stored blob found under a new content's hash is that content. */
  ghost predicate Honest(cfg: Config, s: State, step: Step) {
    step.CreateStep? && Stored(cfg, s.disk, step.ctx.tenant, cfg.hash(step.content)) ==>
      s.disk.blobs[BlobAt(cfg, step.ctx.tenant, cfg.hash(step.content))] == step.content
  }

  ghost predicate HonestRun(cfg: Config, s: State, steps: seq<Step>)
    decreases |steps|
  {
    steps == [] || (Honest(cfg, s, steps[0]) && HonestRun(cfg, Next(cfg, s, steps[0]), steps[1..]))
  }

  lemma StepKeepsBlobs(cfg: Config, s: State, step: Step)
    requires Inv(cfg, s)
    ensures BlobsFixed(s.disk, Next(cfg, s, step).disk)
    ensures BlobsNamed(cfg, s.disk) ==> BlobsNamed(cfg, Next(cfg, s, step).disk)
  {
  }

  lemma CreateKeepsStored(cfg: Config, s: State, ctx: Ctx, path: Path, content: Bytes)
    requires StoredInv(cfg, s) && MayWrite(s, ctx)
    ensures StoredInv(cfg, Next(cfg, s, CreateStep(ctx, path, content)))
  {
  }

  lemma CreateKeepsIntegrity(cfg: Config, s: State, ctx: Ctx, path: Path, content: Bytes)
    requires IntegrityInv(cfg, s) && MayWrite(s, ctx) && Honest(cfg, s, CreateStep(ctx, path, content))
    ensures IntegrityInv(cfg, Next(cfg, s, CreateStep(ctx, path, content)))
  {
    CreateKeepsStored(cfg, s, ctx, path, content);
  }

  lemma BeginKeepsStored(cfg: Config, s: State, ctx: Ctx, id: UploadId)
    requires StoredInv(cfg, s) && MayWrite(s, ctx)
    ensures StoredInv(cfg, Begin(cfg, s, ctx, id))
    ensures IntegrityInv(cfg, s) ==> IntegrityInv(cfg, Begin(cfg, s, ctx, id))
  {
  }

  lemma PersistKeepsStored(cfg: Config, s: State)
    requires Inv(cfg, s) && StoredInv(cfg, s) && s.txn.Copying?
    ensures StoredInv(cfg, Persist(cfg, s))
    ensures IntegrityInv(cfg, s) ==> IntegrityInv(cfg, Persist(cfg, s))
  {
  }

  lemma ProceedKeepsStored(cfg: Config, s: State, r: nat)
    requires StoredInv(cfg, s) && r in s.ops
    ensures StoredInv(cfg, Proceed(s, r))
    ensures IntegrityInv(cfg, s) ==> IntegrityInv(cfg, Proceed(s, r))
  {
    if s.ops[r].Deleting? {
      DeletingKeepsStored(cfg, s, r);
    } else {
      var s' := Proceed(s, r);
      assert s'.disk.blobs == s.disk.blobs && s'.txn == s.txn && s'.db.files == s.db.files;
      assert forall q :: q in s'.ops && s'.ops[q].Deleting? ==> q in s.ops && s'.ops[q] == s.ops[q];
    }
  }

  lemma DeletingKeepsStored(cfg: Config, s: State, r: nat)
    requires StoredInv(cfg, s) && r in s.ops && s.ops[r].Deleting?
    ensures StoredInv(cfg, Proceed(s, r))
    ensures IntegrityInv(cfg, s) ==> IntegrityInv(cfg, Proceed(s, r))
  {
  }

  lemma OtherKeepsStored(cfg: Config, s: State, step: Step)
    requires StoredInv(cfg, s)
    requires !step.CreateStep? && !step.FinalizeStep? && !step.PersistStep? && !step.ProceedStep?
    ensures StoredInv(cfg, Next(cfg, s, step))
    ensures IntegrityInv(cfg, s) ==> IntegrityInv(cfg, Next(cfg, s, step))
  {
  }

  /** That every row has its blob needs no assumption about the hash. */
  lemma StepKeepsStored(cfg: Config, s: State, step: Step)
    requires Inv(cfg, s) && StoredInv(cfg, s)
    ensures StoredInv(cfg, Next(cfg, s, step))
  {
    match step
    case CreateStep(ctx, path, content) => if MayWrite(s, ctx) { CreateKeepsStored(cfg, s, ctx, path, content); }
    case FinalizeStep(ctx, id) => if MayWrite(s, ctx) { BeginKeepsStored(cfg, s, ctx, id); }
    case PersistStep => if s.txn.Copying? { PersistKeepsStored(cfg, s); }
    case ProceedStep(r) => if r in s.ops { ProceedKeepsStored(cfg, s, r); }
    case _ => OtherKeepsStored(cfg, s, step);
  }

  /** That the blob has the row's size does. */
  lemma StepKeepsIntegrity(cfg: Config, s: State, step: Step)
    requires Inv(cfg, s) && IntegrityInv(cfg, s) && Honest(cfg, s, step)
    ensures IntegrityInv(cfg, Next(cfg, s, step))
  {
    match step
    case CreateStep(ctx, path, content) => if MayWrite(s, ctx) { CreateKeepsIntegrity(cfg, s, ctx, path, content); }
    case FinalizeStep(ctx, id) => if MayWrite(s, ctx) { BeginKeepsStored(cfg, s, ctx, id); }
    case PersistStep => if s.txn.Copying? { PersistKeepsStored(cfg, s); }
    case ProceedStep(r) => if r in s.ops { ProceedKeepsStored(cfg, s, r); }
    case _ => OtherKeepsStored(cfg, s, step);
  }

  lemma {:induction false} RunKeepsStored(cfg: Config, s: State, steps: seq<Step>)
    requires cfg.Valid() && Inv(cfg, s) && StoredInv(cfg, s)
    ensures Inv(cfg, Run(cfg, s, steps)) && StoredInv(cfg, Run(cfg, s, steps))
    decreases |steps|
  {
    if steps != [] {
      StepKeepsStored(cfg, s, steps[0]);
      StepKeeps(cfg, s, steps[0]);
      RunKeepsStored(cfg, Next(cfg, s, steps[0]), steps[1..]);
    }
  }

  lemma {:induction false} RunKeepsBlobs(cfg: Config, s: State, steps: seq<Step>)
    requires cfg.Valid() && Inv(cfg, s)
    ensures BlobsFixed(s.disk, Run(cfg, s, steps).disk)
    ensures BlobsNamed(cfg, s.disk) ==> BlobsNamed(cfg, Run(cfg, s, steps).disk)
    decreases |steps|
  {
    if steps != [] {
      StepKeepsBlobs(cfg, s, steps[0]);
      StepKeeps(cfg, s, steps[0]);
      RunKeepsBlobs(cfg, Next(cfg, s, steps[0]), steps[1..]);
    }
  }

  lemma {:induction false} RunKeepsIntegrity(cfg: Config, s: State, steps: seq<Step>)
    requires cfg.Valid() && Inv(cfg, s) && IntegrityInv(cfg, s) && HonestRun(cfg, s, steps)
    ensures IntegrityInv(cfg, Run(cfg, s, steps))
    decreases |steps|
  {
    if steps != [] {
      StepKeepsIntegrity(cfg, s, steps[0]);
      StepKeeps(cfg, s, steps[0]);
      RunKeepsIntegrity(cfg, Next(cfg, s, steps[0]), steps[1..]);
    }
  }

  /** A collision-free hash makes every run honest. */
  lemma {:induction false} CollisionFreeIsHonest(cfg: Config, s: State, steps: seq<Step>)
    requires cfg.Valid() && Inv(cfg, s) && BlobsNamed(cfg, s.disk) && CollisionFree(cfg)
    ensures HonestRun(cfg, s, steps)
    decreases |steps|
  {
    if steps != [] {
      StepKeepsBlobs(cfg, s, steps[0]);
      StepKeeps(cfg, s, steps[0]);
      CollisionFreeIsHonest(cfg, Next(cfg, s, steps[0]), steps[1..]);
    }
  }

  /**
   * From an empty server, under every interleaving: each stored blob hashes to its name, no later
   * step changes it, and every row points to a stored blob of the row's size.
   */
  lemma StorageIsSound(cfg: Config, steps: seq<Step>, later: seq<Step>)
    requires cfg.Valid() && CollisionFree(cfg)
    ensures IntegrityInv(cfg, Run(cfg, Init(), steps))
    ensures BlobsFixed(Run(cfg, Init(), steps).disk, Run(cfg, Init(), steps + later).disk)
  {
    InitHolds(cfg);
    CollisionFreeIsHonest(cfg, Init(), steps);
    RunKeepsIntegrity(cfg, Init(), steps);
    RunKeeps(cfg, Init(), steps);
    RunAppend(cfg, Init(), steps, later);
    RunKeepsBlobs(cfg, Run(cfg, Init(), steps), later);
  }

  /**
   * Without that assumption the row a create writes is right exactly when the blob already
   * stored under the hash, if any, has the content's length.
   */
  lemma CreateRowBackedIff(cfg: Config, ctx: Ctx, db: Db, disk: Disk, path: Path, content: Bytes)
    requires StageCreate(cfg, ctx, db, disk, path, content).Ok?
    ensures var (db', disk') := StageCreate(cfg, ctx, db, disk, path, content).value;
            var blob := BlobAt(cfg, ctx.tenant, cfg.hash(content));
            RowBacked(cfg, disk', db'.files[MakeKey(ctx.tenant, path)])
            <==> (blob in disk.blobs ==> |disk.blobs[blob]| == |content|)
  {
  }
}
