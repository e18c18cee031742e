/** Usage against the bytes actually stored. */
module Conservation {
  import opened Prelude
  import opened Sums
  import opened Tables
  import opened Quota
  import opened Machine
  import opened Invariants
  import opened Safety
  import opened Integrity

  ghost function Sizes(cfg: Config, disk: Disk, t: Tenant): map<BlobPath, nat> {
    map b | b in disk.blobs && b.ns == cfg.nsHash(t) :: |disk.blobs[b]|
  }

  ghost function BlobBytes(cfg: Config, disk: Disk, t: Tenant): nat { Sum(Sizes(cfg, disk, t)) }

  ghost predicate ChargedAtMost(cfg: Config, db: Db, disk: Disk) {
    forall t :: UsageOf(db, t) <= BlobBytes(cfg, disk, t)
  }

  ghost predicate ChargedExactly(cfg: Config, db: Db, disk: Disk) {
    forall t :: UsageOf(db, t) == BlobBytes(cfg, disk, t)
  }

  /** Distinct tenants have distinct blob directories. */
  ghost predicate NamespacesDistinct(cfg: Config) {
    forall t, u :: cfg.nsHash(t) == cfg.nsHash(u) ==> t == u
  }

  function WithBlob(disk: Disk, b: BlobPath, content: Bytes): Disk {
    disk.(blobs := disk.blobs[b := content])
  }

  lemma NewBlob(cfg: Config, disk: Disk, b: BlobPath, content: Bytes, t: Tenant)
    requires b !in disk.blobs
    ensures BlobBytes(cfg, WithBlob(disk, b, content), t)
            == BlobBytes(cfg, disk, t) + if b.ns == cfg.nsHash(t) then |content| else 0
  {
    var after := Sizes(cfg, WithBlob(disk, b, content), t);
    if b.ns == cfg.nsHash(t) {
      SumPut(Sizes(cfg, disk, t), b, |content|);
      assert after == Sizes(cfg, disk, t)[b := |content|];
    } else {
      assert after == Sizes(cfg, disk, t);
    }
  }

  /** Storing one blob and charging its size to its owner. */
  lemma StoreAndCharge(cfg: Config, db: Db, db': Db, disk: Disk, t: Tenant, hash: Hash, content: Bytes)
    requires !Stored(cfg, disk, t, hash)
    requires UsageOf(db', t) == UsageOf(db, t) + |content|
    requires forall u :: u != t ==> UsageOf(db', u) == UsageOf(db, u)
    ensures var disk' := WithBlob(disk, BlobAt(cfg, t, hash), content);
            && (ChargedAtMost(cfg, db, disk) ==> ChargedAtMost(cfg, db, disk') && ChargedAtMost(cfg, db', disk'))
            && (ChargedExactly(cfg, db, disk) && NamespacesDistinct(cfg) ==> ChargedExactly(cfg, db', disk'))
  {
    forall u ensures BlobBytes(cfg, WithBlob(disk, BlobAt(cfg, t, hash), content), u)
        == BlobBytes(cfg, disk, u) + if cfg.nsHash(t) == cfg.nsHash(u) then |content| else 0
    {
      NewBlob(cfg, disk, BlobAt(cfg, t, hash), content, u);
    }
  }

  ghost predicate AtMostInv(cfg: Config, s: State) {
    ChargedAtMost(cfg, s.db, s.disk) && (s.txn.Ready? ==> ChargedAtMost(cfg, s.txn.tables, s.disk))
  }

  ghost predicate ExactInv(cfg: Config, s: State) {
    ChargedExactly(cfg, if s.txn.Ready? then s.txn.tables else s.db, s.disk)
  }

  lemma CreateCharges(cfg: Config, s: State, ctx: Ctx, path: Path, content: Bytes)
    requires cfg.Valid() && Inv(cfg, s) && AtMostInv(cfg, s) && MayWrite(s, ctx)
    ensures AtMostInv(cfg, Next(cfg, s, CreateStep(ctx, path, content)))
    ensures ExactInv(cfg, s) && NamespacesDistinct(cfg) ==> ExactInv(cfg, Next(cfg, s, CreateStep(ctx, path, content)))
  {
    var staged := StageCreate(cfg, ctx, s.db, s.disk, path, content);
    var hash := cfg.hash(content);
    if staged.Ok? {
      var db' := staged.value.0;
      if Stored(cfg, s.disk, ctx.tenant, hash) {
        assert forall u :: UsageOf(db', u) == UsageOf(s.db, u);
      } else {
        CreateKeepsQuota(cfg, ctx, s.db, s.disk, path, content);
        StoreAndCharge(cfg, s.db, db', s.disk, ctx.tenant, hash, content);
      }
    }
  }

  lemma PersistCharges(cfg: Config, s: State)
    requires cfg.Valid() && Inv(cfg, s) && AtMostInv(cfg, s) && s.txn.Copying?
    ensures AtMostInv(cfg, Persist(cfg, s))
    ensures ExactInv(cfg, s) && NamespacesDistinct(cfg) ==> ExactInv(cfg, Persist(cfg, s))
  {
    var Copying(ctx, id, _, temp) := s.txn;
    var upload := s.db.uploads[id];
    assert UploadOk(s.db, s.disk, s.nextId, id);
    if CheckJoined(cfg, upload, temp).Ok? {
      FinalizeKeepsQuota(cfg, ctx, s.db, s.disk, upload, temp);
      StoreAndCharge(cfg, s.db, Persist(cfg, s).txn.tables, s.disk, ctx.tenant, upload.totalHash, temp);
    }
  }

  ghost predicate SameUsage(db: Db, db': Db) {
    forall u :: UsageOf(db', u) == UsageOf(db, u)
  }

  lemma SameCharges(cfg: Config, db: Db, db': Db, disk: Disk, disk': Disk)
    requires SameUsage(db, db') && disk'.blobs == disk.blobs
    ensures ChargedAtMost(cfg, db, disk) ==> ChargedAtMost(cfg, db', disk')
    ensures ChargedExactly(cfg, db, disk) ==> ChargedExactly(cfg, db', disk')
  {
    forall u ensures BlobBytes(cfg, disk', u) == BlobBytes(cfg, disk, u) {
      assert Sizes(cfg, disk', u) == Sizes(cfg, disk, u);
    }
    assert forall u :: UsageOf(db', u) == UsageOf(db, u);
  }

  /** Every other step stores nothing and keeps the usages of the tables in question. */
  lemma OtherStepUsage(cfg: Config, s: State, step: Step)
    requires !step.CreateStep? && !step.PersistStep?
    ensures var s' := Next(cfg, s, step);
            && s'.disk.blobs == s.disk.blobs
            && SameUsage(if step.CommitStep? && s.txn.Ready? && s'.txn.Idle? then s.txn.tables else s.db, s'.db)
            && (s'.txn.Ready? ==> SameUsage(if s.txn.Ready? then s.txn.tables else s.db, s'.txn.tables))
  {
  }

  lemma OtherStepCharges(cfg: Config, s: State, step: Step)
    requires AtMostInv(cfg, s) && !step.CreateStep? && !step.PersistStep?
    ensures AtMostInv(cfg, Next(cfg, s, step))
    ensures ExactInv(cfg, s) && !step.CrashStep? && !step.RollbackStep? ==> ExactInv(cfg, Next(cfg, s, step))
  {
    var s' := Next(cfg, s, step);
    OtherStepUsage(cfg, s, step);
    var before := if step.CommitStep? && s.txn.Ready? && s'.txn.Idle? then s.txn.tables else s.db;
    SameCharges(cfg, before, s'.db, s.disk, s'.disk);
    if s'.txn.Ready? {
      SameCharges(cfg, if s.txn.Ready? then s.txn.tables else s.db, s'.txn.tables, s.disk, s'.disk);
    }
  }

  lemma StepCharges(cfg: Config, s: State, step: Step)
    requires cfg.Valid() && Inv(cfg, s) && AtMostInv(cfg, s)
    ensures AtMostInv(cfg, Next(cfg, s, step))
    ensures ExactInv(cfg, s) && NamespacesDistinct(cfg) && !step.CrashStep? && !step.RollbackStep? ==>
              ExactInv(cfg, Next(cfg, s, step))
  {
    if step.CreateStep? {
      if MayWrite(s, step.ctx) { CreateCharges(cfg, s, step.ctx, step.path, step.content); }
    } else if step.PersistStep? {
      if s.txn.Copying? { PersistCharges(cfg, s); }
    } else {
      OtherStepCharges(cfg, s, step);
    }
  }

  /** With crashes a tenant is never charged for more than is stored. */
  lemma {:induction false} RunCharges(cfg: Config, s: State, steps: seq<Step>)
    requires cfg.Valid() && Inv(cfg, s) && AtMostInv(cfg, s)
    ensures AtMostInv(cfg, Run(cfg, s, steps))
    ensures ExactInv(cfg, s) && NamespacesDistinct(cfg) && CrashFree(steps) ==> ExactInv(cfg, Run(cfg, s, steps))
    decreases |steps|
  {
    if steps != [] {
      StepCharges(cfg, s, steps[0]);
      StepKeeps(cfg, s, steps[0]);
      RunCharges(cfg, Next(cfg, s, steps[0]), steps[1..]);
    }
  }

  lemma InitCharges(cfg: Config)
    ensures AtMostInv(cfg, Init()) && ExactInv(cfg, Init())
  {
    assert forall t :: Sizes(cfg, Init().disk, t) == map[];
  }

  /**
   * From an empty server: usage never exceeds what is stored, and without crashes it equals it
   * whenever no transaction is about to commit.
   */
  lemma UsageMatchesStorage(cfg: Config, steps: seq<Step>, t: Tenant)
    requires cfg.Valid()
    ensures var s := Run(cfg, Init(), steps); UsageOf(s.db, t) <= BlobBytes(cfg, s.disk, t)
    ensures var s := Run(cfg, Init(), steps);
            NamespacesDistinct(cfg) && CrashFree(steps) && !s.txn.Ready? ==> UsageOf(s.db, t) == BlobBytes(cfg, s.disk, t)
  {
    InitHolds(cfg);
    InitCharges(cfg);
    RunCharges(cfg, Init(), steps);
  }

  // ---- all tenants together ----

  ghost function AllSizes(disk: Disk): map<BlobPath, nat> { map b | b in disk.blobs :: |disk.blobs[b]| }

  ghost function StoredBytes(disk: Disk): nat { Sum(AllSizes(disk)) }

  ghost predicate TotalInv(s: State) {
    StoredBytes(s.disk) == TotalUsage(if s.txn.Ready? then s.txn.tables else s.db)
  }

  lemma ChargeTotal(db: Db, t: Tenant, usage: nat, disk: Disk, b: BlobPath, content: Bytes)
    requires b !in disk.blobs && usage == UsageOf(db, t) + |content|
    requires StoredBytes(disk) == TotalUsage(db)
    ensures StoredBytes(WithBlob(disk, b, content)) == Sum(db.usages[t := usage])
  {
    SumPut(AllSizes(disk), b, |content|);
    assert AllSizes(WithBlob(disk, b, content)) == AllSizes(disk)[b := |content|];
    SumPut(db.usages, t, usage);
  }

  lemma CreateTotal(cfg: Config, s: State, ctx: Ctx, path: Path, content: Bytes)
    requires cfg.Valid() && Inv(cfg, s) && TotalInv(s) && MayWrite(s, ctx)
    ensures TotalInv(Next(cfg, s, CreateStep(ctx, path, content)))
  {
    var staged := StageCreate(cfg, ctx, s.db, s.disk, path, content);
    var t := ctx.tenant;
    if staged.Ok? && Stored(cfg, s.disk, t, cfg.hash(content)) {
      SumPut(s.db.usages, t, UsageOf(s.db, t));
    } else if staged.Ok? {
      CreateKeepsQuota(cfg, ctx, s.db, s.disk, path, content);
      ChargeTotal(s.db, t, UsageOf(staged.value.0, t), s.disk, BlobAt(cfg, t, cfg.hash(content)), content);
    }
  }

  lemma PersistTotal(cfg: Config, s: State)
    requires cfg.Valid() && Inv(cfg, s) && TotalInv(s) && s.txn.Copying?
    ensures TotalInv(Persist(cfg, s))
  {
    var Copying(ctx, id, _, temp) := s.txn;
    var upload := s.db.uploads[id];
    assert UploadOk(s.db, s.disk, s.nextId, id);
    if CheckJoined(cfg, upload, temp).Ok? {
      FinalizeKeepsQuota(cfg, ctx, s.db, s.disk, upload, temp);
      var usage := UsageOf(Persist(cfg, s).txn.tables, ctx.tenant);
      ChargeTotal(s.db, ctx.tenant, usage, s.disk, BlobAt(cfg, ctx.tenant, upload.totalHash), temp);
    }
  }

  lemma StepTotal(cfg: Config, s: State, step: Step)
    requires cfg.Valid() && Inv(cfg, s) && TotalInv(s) && !step.CrashStep? && !step.RollbackStep?
    ensures TotalInv(Next(cfg, s, step))
  {
    match step
    case CreateStep(ctx, path, content) => if MayWrite(s, ctx) { CreateTotal(cfg, s, ctx, path, content); }
    case PersistStep => if s.txn.Copying? { PersistTotal(cfg, s); }
    case InitStep(r, ctx, req) => SumPut(s.db.usages, ctx.tenant, UsageOf(s.db, ctx.tenant));
    case _ => DiskFixed(cfg, s, step);
  }

  lemma {:induction false} RunTotal(cfg: Config, s: State, steps: seq<Step>)
    requires cfg.Valid() && Inv(cfg, s) && TotalInv(s) && CrashFree(steps)
    ensures TotalInv(Run(cfg, s, steps))
    decreases |steps|
  {
    if steps != [] {
      StepTotal(cfg, s, steps[0]);
      StepKeeps(cfg, s, steps[0]);
      RunTotal(cfg, Next(cfg, s, steps[0]), steps[1..]);
    }
  }

  /** Without crashes the whole blob store is within the tenant limit times the quota. */
  lemma StorageIsBounded(cfg: Config, steps: seq<Step>)
    requires cfg.Valid() && CrashFree(steps)
    ensures StoredBytes(Run(cfg, Init(), steps).disk) <= cfg.maxTenants * cfg.quota
  {
    InitHolds(cfg);
    assert AllSizes(Init().disk) == map[];
    RunTotal(cfg, Init(), steps);
    RunKeeps(cfg, Init(), steps);
    var s := Run(cfg, Init(), steps);
    TablesBounded(cfg, if s.txn.Ready? then s.txn.tables else s.db, s.disk, s.nextId);
  }

  // ---- retries after a crash ----

  /**
   * A create that dies between storing its blob and committing, tried again at any later time:
   * the row is there, and the blob is not charged twice. It is in fact never charged by either.
   */
  lemma CreateRetried(cfg: Config, s: State, ctx: Ctx, path: Path, content: Bytes, between: seq<Step>, r: nat)
    requires cfg.Valid() && Inv(cfg, s) && MayWrite(s, ctx)
    requires StageCreate(cfg, ctx, s.db, s.disk, path, content).Ok?
    requires var later := Run(cfg, s, [CreateStep(ctx, path, content), CrashStep] + between);
             MayWrite(later, ctx) && r !in later.ops
    ensures var later := Run(cfg, s, [CreateStep(ctx, path, content), CrashStep] + between);
            var s' := Run(cfg, later, [CreateStep(ctx, path, content), CommitStep(r)]);
            && s'.txn.Idle? && s'.disk == later.disk
            && s'.db.files == WithRow(later.db.files, ctx, path, |content|, cfg.hash(content))
            && Stored(cfg, s'.disk, ctx.tenant, cfg.hash(content))
            && UsageOf(s'.db, ctx.tenant) == UsageOf(later.db, ctx.tenant)
  {
    var create := CreateStep(ctx, path, content);
    RunAppend(cfg, s, [create, CrashStep], between);
    CreateCrashed(cfg, s, ctx, path, content);
    var crashed := Run(cfg, s, [create, CrashStep]);
    RunKeepsBlobs(cfg, crashed, between);
    CreateStored(cfg, Run(cfg, crashed, between), ctx, path, content, r);
  }

  lemma CreateCrashed(cfg: Config, s: State, ctx: Ctx, path: Path, content: Bytes)
    requires cfg.Valid() && Inv(cfg, s) && MayWrite(s, ctx)
    requires StageCreate(cfg, ctx, s.db, s.disk, path, content).Ok?
    ensures var crashed := Run(cfg, s, [CreateStep(ctx, path, content), CrashStep]);
            Inv(cfg, crashed) && Stored(cfg, crashed.disk, ctx.tenant, cfg.hash(content))
  {
    RunTwo(cfg, s, CreateStep(ctx, path, content), CrashStep);
    RunKeeps(cfg, s, [CreateStep(ctx, path, content), CrashStep]);
  }

  /** A create whose blob is stored already. */
  lemma CreateStored(cfg: Config, s: State, ctx: Ctx, path: Path, content: Bytes, r: nat)
    requires MayWrite(s, ctx) && r !in s.ops && Stored(cfg, s.disk, ctx.tenant, cfg.hash(content))
    ensures var s' := Run(cfg, s, [CreateStep(ctx, path, content), CommitStep(r)]);
            && s'.txn.Idle? && s'.disk == s.disk
            && s'.db.files == WithRow(s.db.files, ctx, path, |content|, cfg.hash(content))
            && UsageOf(s'.db, ctx.tenant) == UsageOf(s.db, ctx.tenant)
  {
    RunTwo(cfg, s, CreateStep(ctx, path, content), CommitStep(r));
  }

  /** An upload with all its chunks, wherever it is still pending. */
  ghost predicate StillComplete(s: State, id: UploadId, upload: Upload) {
    && id < s.nextId
    && (id in s.db.uploads ==> s.db.uploads[id] == upload)
    && (s.txn.Ready? && id in s.txn.tables.uploads ==> s.txn.tables.uploads[id] == upload)
  }

  lemma StepKeepsComplete(cfg: Config, s: State, step: Step, id: UploadId, upload: Upload)
    requires Inv(cfg, s) && StillComplete(s, id, upload)
    requires NoDuplicates(upload.chunksReceived) && |upload.chunksReceived| == upload.chunkCount
    requires forall i :: 0 <= i < |upload.chunksReceived| ==> upload.chunksReceived[i] < upload.chunkCount
    ensures StillComplete(Next(cfg, s, step), id, upload)
  {
    AllReceived(upload.chunksReceived, upload.chunkCount);
    if step.ProceedStep? && step.r in s.ops { assert OpOk(s.db, s.disk, s.nextId, s.ops[step.r]); }
  }

  lemma {:induction false} RunKeepsComplete(cfg: Config, s: State, steps: seq<Step>, id: UploadId, upload: Upload)
    requires cfg.Valid() && Inv(cfg, s) && StillComplete(s, id, upload)
    requires NoDuplicates(upload.chunksReceived) && |upload.chunksReceived| == upload.chunkCount
    requires forall i :: 0 <= i < |upload.chunksReceived| ==> upload.chunksReceived[i] < upload.chunkCount
    ensures StillComplete(Run(cfg, s, steps), id, upload)
    decreases |steps|
  {
    if steps != [] {
      StepKeepsComplete(cfg, s, steps[0], id, upload);
      StepKeeps(cfg, s, steps[0]);
      RunKeepsComplete(cfg, Next(cfg, s, steps[0]), steps[1..], id, upload);
    }
  }

  /** The same for a finalize that dies after renaming the reassembled file into place. */
  lemma FinalizeRetried(cfg: Config, s: State, between: seq<Step>, r: nat)
    requires cfg.Valid() && Inv(cfg, s) && s.txn.Copying?
    requires s.txn.next == s.db.uploads[s.txn.id].chunkCount
    requires CheckJoined(cfg, s.db.uploads[s.txn.id], s.txn.temp).Ok?
    requires var later := Run(cfg, s, [PersistStep, CrashStep] + between);
             MayWrite(later, s.txn.ctx) && Owns(later.db, s.txn.ctx.tenant, s.txn.id) && r !in later.ops
    ensures var Copying(ctx, id, _, temp) := s.txn;
            var upload := s.db.uploads[id];
            var later := Run(cfg, s, [PersistStep, CrashStep] + between);
            var s' := Run(cfg, later, [FinalizeStep(ctx, id), CommitStep(r)]);
            && s'.txn.Idle? && s'.disk == later.disk
            && s'.db.files == WithRow(later.db.files, ctx, upload.path, upload.totalSize, upload.totalHash)
            && s'.db.uploads == later.db.uploads - {id}
            && BlobAt(cfg, ctx.tenant, upload.totalHash) in s'.disk.blobs
            && s'.disk.blobs[BlobAt(cfg, ctx.tenant, upload.totalHash)] == temp
            && s'.db.usages == later.db.usages
            && s'.ops == later.ops[r := RemovingStaging(ctx.tenant, id)]
  {
    var Copying(ctx, id, _, temp) := s.txn;
    var upload := s.db.uploads[id];
    assert UploadOk(s.db, s.disk, s.nextId, id);
    RunAppend(cfg, s, [PersistStep, CrashStep], between);
    FinalizeCrashed(cfg, s);
    var crashed := Run(cfg, s, [PersistStep, CrashStep]);
    RunKeepsBlobs(cfg, crashed, between);
    RunKeepsComplete(cfg, crashed, between, id, upload);
    FinalizeStored(cfg, Run(cfg, crashed, between), ctx, upload, temp, r);
  }

  lemma FinalizeCrashed(cfg: Config, s: State)
    requires cfg.Valid() && Inv(cfg, s) && s.txn.Copying?
    requires s.txn.next == s.db.uploads[s.txn.id].chunkCount
    requires CheckJoined(cfg, s.db.uploads[s.txn.id], s.txn.temp).Ok?
    ensures var Copying(ctx, id, _, temp) := s.txn;
            var upload := s.db.uploads[id];
            var blob := BlobAt(cfg, ctx.tenant, upload.totalHash);
            var crashed := Run(cfg, s, [PersistStep, CrashStep]);
            && Inv(cfg, crashed) && StillComplete(crashed, id, upload)
            && blob in crashed.disk.blobs && crashed.disk.blobs[blob] == temp
  {
    assert UploadOk(s.db, s.disk, s.nextId, s.txn.id);
    RunTwo(cfg, s, PersistStep, CrashStep);
    RunKeeps(cfg, s, [PersistStep, CrashStep]);
  }

  /** A finalize whose blob is stored already. */
  lemma FinalizeStored(cfg: Config, s: State, ctx: Ctx, upload: Upload, content: Bytes, r: nat)
    requires MayWrite(s, ctx) && r !in s.ops && Owns(s.db, ctx.tenant, upload.id) && s.db.uploads[upload.id] == upload
    requires |upload.chunksReceived| == upload.chunkCount && |content| == upload.totalSize
    requires BlobAt(cfg, ctx.tenant, upload.totalHash) in s.disk.blobs
    requires s.disk.blobs[BlobAt(cfg, ctx.tenant, upload.totalHash)] == content
    ensures var s' := Run(cfg, s, [FinalizeStep(ctx, upload.id), CommitStep(r)]);
            && s'.txn.Idle? && s'.disk == s.disk && s'.db == FinalizeDb(s.db, ctx, upload, None)
            && s'.ops == s.ops[r := RemovingStaging(ctx.tenant, upload.id)]
  {
    RunTwo(cfg, s, FinalizeStep(ctx, upload.id), CommitStep(r));
  }
}
