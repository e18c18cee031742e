/** What every step of the server keeps, whatever interleaves and wherever it dies. */
module Invariants {
  import opened Prelude
  import opened Sums
  import opened Tables
  import opened Quota
  import opened Machine

  // ---- the tables against the disk ----

  ghost predicate UploadOk(db: Db, disk: Disk, nextId: UploadId, id: UploadId)
    requires id in db.uploads
  {
    var upload := db.uploads[id];
    && upload.id == id < nextId
    && upload.tenant in db.usages
    && NoDuplicates(upload.chunksReceived)
    && forall i :: 0 <= i < |upload.chunksReceived| ==>
         upload.chunksReceived[i] < upload.chunkCount && Staged(disk, id, upload.chunksReceived[i])
  }

  predicate Staged(disk: Disk, id: UploadId, index: nat) {
    id in disk.staging && index in disk.staging[id]
  }

  ghost predicate UploadsOk(db: Db, disk: Disk, nextId: UploadId) {
    forall id :: id in db.uploads ==> UploadOk(db, disk, nextId, id)
  }

  ghost predicate TenantsOk(cfg: Config, db: Db) {
    db.usages.Keys <= db.tenants && |db.tenants| <= cfg.maxTenants
  }

  ghost predicate TablesOk(cfg: Config, db: Db, disk: Disk, nextId: UploadId) {
    QuotaInv(cfg, db, disk) && UploadsOk(db, disk, nextId) && TenantsOk(cfg, db)
  }

  // ---- unfinished requests ----

  ghost predicate OpOk(db: Db, disk: Disk, nextId: UploadId, op: Op) {
    match op
    case ChunkRead(ctx, id, index, _) =>
      id < nextId && (id in db.uploads ==> db.uploads[id].tenant == ctx.tenant && index < db.uploads[id].chunkCount)
    case ChunkWritten(ctx, id, index) =>
      id < nextId && (id in db.uploads ==>
        db.uploads[id].tenant == ctx.tenant && index < db.uploads[id].chunkCount && Staged(disk, id, index))
    case MakingStaging(t, id) => id < nextId && (id in db.uploads ==> db.uploads[id].tenant == t)
    case RemovingStaging(_, id) => id < nextId && id !in db.uploads
    case Deleting(_, _, _) => true
  }

  ghost predicate OpsOk(db: Db, disk: Disk, nextId: UploadId, ops: map<nat, Op>) {
    forall r :: r in ops ==> OpOk(db, disk, nextId, ops[r])
  }

  ghost predicate TxnOk(cfg: Config, s: State) {
    match s.txn
    case Idle => true
    case Copying(ctx, id, next, _) =>
      && Owns(s.db, ctx.tenant, id)
      && |s.db.uploads[id].chunksReceived| == s.db.uploads[id].chunkCount
      && next <= s.db.uploads[id].chunkCount
      && !Stored(cfg, s.disk, ctx.tenant, s.db.uploads[id].totalHash)
    case Ready(t, tables, cleanup) =>
      && TablesOk(cfg, tables, s.disk, s.nextId)
      && Submap(tables.uploads, s.db.uploads)
      && (cleanup.Some? ==> cleanup.value < s.nextId && cleanup.value !in tables.uploads)
  }

  ghost predicate Inv(cfg: Config, s: State) {
    && TablesOk(cfg, s.db, s.disk, s.nextId)
    && OpsOk(s.db, s.disk, s.nextId, s.ops)
    && TxnOk(cfg, s)
    && forall id :: id in s.disk.staging ==> id < s.nextId
  }

  /** The staged chunks of a pending upload that a disk change must not lose. */
  ghost predicate KeepsStaged(db: Db, disk: Disk, disk': Disk) {
    forall id, i :: id in db.uploads && Staged(disk, id, i) ==> Staged(disk', id, i)
  }

  /** Disk changes that only add blobs and chunks. */
  lemma DiskGrows(cfg: Config, s: State, disk': Disk)
    requires Inv(cfg, s) && s.disk.blobs.Keys <= disk'.blobs.Keys
    requires KeepsStaged(s.db, s.disk, disk')
    requires forall id :: id in disk'.staging ==> id < s.nextId
    ensures TablesOk(cfg, s.db, disk', s.nextId) && OpsOk(s.db, disk', s.nextId, s.ops)
    ensures s.txn.Ready? ==> TablesOk(cfg, s.txn.tables, disk', s.nextId)
    ensures disk'.blobs == s.disk.blobs ==> Inv(cfg, s.(disk := disk'))
  {
    MoreBlobs(cfg, s.db, s.disk, disk');
    assert UploadsOk(s.db, disk', s.nextId) by {
      assert forall id :: id in s.db.uploads ==> UploadOk(s.db, s.disk, s.nextId, id);
    }
    assert OpsOk(s.db, disk', s.nextId, s.ops) by {
      assert forall r :: r in s.ops ==> OpOk(s.db, s.disk, s.nextId, s.ops[r]);
    }
    if s.txn.Ready? {
      MoreBlobs(cfg, s.txn.tables, s.disk, disk');
      assert forall id :: id in s.txn.tables.uploads ==> UploadOk(s.txn.tables, s.disk, s.nextId, id);
    }
  }

  /** Tables with fewer uploads and more usage rows keep the upload facts. */
  lemma FewerUploads(db: Db, db': Db, disk: Disk, nextId: UploadId, ops: map<nat, Op>)
    requires UploadsOk(db, disk, nextId) && OpsOk(db, disk, nextId, ops)
    requires Submap(db'.uploads, db.uploads) && db.usages.Keys <= db'.usages.Keys
    ensures UploadsOk(db', disk, nextId) && OpsOk(db', disk, nextId, ops)
  {
    assert forall id :: id in db'.uploads ==> UploadOk(db, disk, nextId, id);
    assert forall r :: r in ops ==> OpOk(db, disk, nextId, ops[r]);
  }

  // ---- one lemma for each step ----

  lemma AdmitKeeps(cfg: Config, s: State, t: Tenant)
    requires Inv(cfg, s) && s.txn.Idle?
    ensures Inv(cfg, s.(db := Admit(cfg, s.db, t).0))
  {
    var db' := Admit(cfg, s.db, t).0;
    SameReservations(cfg, s.db, db', s.disk);
    FewerUploads(s.db, db', s.disk, s.nextId, s.ops);
  }

  lemma CreateKeeps(cfg: Config, s: State, ctx: Ctx, path: Path, content: Bytes)
    requires cfg.Valid() && Inv(cfg, s) && MayWrite(s, ctx)
    ensures Inv(cfg, Next(cfg, s, CreateStep(ctx, path, content)))
  {
    var staged := StageCreate(cfg, ctx, s.db, s.disk, path, content);
    if staged.Ok? {
      var (db', disk') := staged.value;
      CreateKeepsQuota(cfg, ctx, s.db, s.disk, path, content);
      DiskGrows(cfg, s, disk');
      FewerUploads(s.db, db', disk', s.nextId, s.ops);
      assert TenantsOk(cfg, db');
    }
  }

  lemma InitKeeps(cfg: Config, s: State, r: nat, ctx: Ctx, req: InitRequest)
    requires cfg.Valid() && Inv(cfg, s) && MayWrite(s, ctx) && r !in s.ops
    ensures Inv(cfg, Next(cfg, s, InitStep(r, ctx, req)))
  {
    var staged := StageUpload(cfg, ctx, s.db, s.disk, req, s.nextId);
    if staged.Ok? {
      assert s.nextId !in s.db.uploads by {
        assert forall id :: id in s.db.uploads ==> UploadOk(s.db, s.disk, s.nextId, id);
      }
      InitKeepsQuota(cfg, ctx, s.db, s.disk, req, s.nextId);
      var s' := Next(cfg, s, InitStep(r, ctx, req));
      forall id | id in s'.db.uploads
        ensures UploadOk(s'.db, s.disk, s'.nextId, id)
      {
        if id != s.nextId { assert UploadOk(s.db, s.disk, s.nextId, id); }
      }
      forall q | q in s'.ops
        ensures OpOk(s'.db, s.disk, s'.nextId, s'.ops[q])
      {
        if q != r { assert OpOk(s.db, s.disk, s.nextId, s.ops[q]); }
      }
    }
  }

  lemma FinalizeDbKeeps(cfg: Config, s: State, ctx: Ctx, id: UploadId, charge: Option<nat>, disk': Disk)
    requires Inv(cfg, s) && ctx.tenant in s.db.tenants && Owns(s.db, ctx.tenant, id)
    requires disk'.staging == s.disk.staging && s.disk.blobs.Keys <= disk'.blobs.Keys
    requires QuotaInv(cfg, FinalizeDb(s.db, ctx, s.db.uploads[id], charge), disk')
    ensures Inv(cfg, s.(disk := disk', txn := Ready(ctx.tenant, FinalizeDb(s.db, ctx, s.db.uploads[id], charge), Some(id))))
  {
    assert UploadOk(s.db, s.disk, s.nextId, id);
    var db' := FinalizeDb(s.db, ctx, s.db.uploads[id], charge);
    DiskGrows(cfg, s, disk');
    FewerUploads(s.db, db', disk', s.nextId, s.ops);
  }

  lemma BeginKeeps(cfg: Config, s: State, ctx: Ctx, id: UploadId)
    requires cfg.Valid() && Inv(cfg, s) && MayWrite(s, ctx)
    ensures Inv(cfg, Begin(cfg, s, ctx, id))
  {
    var check := CheckFinalize(s.db, ctx, id);
    if check.Ok? && Stored(cfg, s.disk, ctx.tenant, check.value.totalHash) {
      assert UploadOk(s.db, s.disk, s.nextId, id);
      SameReservations(cfg, s.db, FinalizeDb(s.db, ctx, check.value, None), s.disk);
      FinalizeDbKeeps(cfg, s, ctx, id, None, s.disk);
    }
  }

  lemma PersistKeeps(cfg: Config, s: State)
    requires cfg.Valid() && Inv(cfg, s) && s.txn.Copying?
    ensures Inv(cfg, Persist(cfg, s))
  {
    var Copying(ctx, id, _, temp) := s.txn;
    var upload := s.db.uploads[id];
    assert UploadOk(s.db, s.disk, s.nextId, id);
    if CheckJoined(cfg, upload, temp).Ok? {
      FinalizeKeepsQuota(cfg, ctx, s.db, s.disk, upload, temp);
      FinalizeDbKeeps(cfg, s, ctx, id, Some(|temp|), Persist(cfg, s).disk);
    }
  }

  lemma CommitKeeps(cfg: Config, s: State, r: nat)
    requires Inv(cfg, s) && s.txn.Ready? && r !in s.ops
    ensures Inv(cfg, Commit(s, r))
  {
    var s' := Commit(s, r);
    forall q | q in s'.ops
      ensures OpOk(s'.db, s.disk, s.nextId, s'.ops[q])
    {
      if q != r { assert OpOk(s.db, s.disk, s.nextId, s.ops[q]); }
    }
  }

  lemma ChunkStepKeeps(cfg: Config, s: State, r: nat, ctx: Ctx, id: UploadId, index: nat, body: Bytes)
    requires Inv(cfg, s)
    ensures Inv(cfg, Next(cfg, s, ChunkStep(r, ctx, id, index, body)))
  {
    if Owns(s.db, ctx.tenant, id) { assert UploadOk(s.db, s.disk, s.nextId, id); }
    assert forall q :: q in s.ops ==> OpOk(s.db, s.disk, s.nextId, s.ops[q]);
  }

  lemma AddChunkKeeps(cfg: Config, s: State, ctx: Ctx, id: UploadId, index: nat)
    requires Inv(cfg, s) && s.txn.Idle?
    requires OpOk(s.db, s.disk, s.nextId, ChunkWritten(ctx, id, index))
    ensures Inv(cfg, s.(db := AddChunk(s.db, ctx, id, index)))
  {
    var db' := AddChunk(s.db, ctx, id, index);
    SameReservations(cfg, s.db, db', s.disk);
    forall j | j in db'.uploads
      ensures UploadOk(db', s.disk, s.nextId, j)
    {
      assert UploadOk(s.db, s.disk, s.nextId, j);
    }
    assert forall q :: q in s.ops ==> OpOk(s.db, s.disk, s.nextId, s.ops[q]);
  }

  lemma ProceedKeeps(cfg: Config, s: State, r: nat)
    requires Inv(cfg, s) && r in s.ops
    ensures Inv(cfg, Proceed(s, r))
  {
    var op := s.ops[r];
    assert OpOk(s.db, s.disk, s.nextId, op);
    var done := s.(ops := s.ops - {r});
    match op
    case ChunkRead(ctx, id, index, body) =>
      if id in s.disk.staging {
        var disk' := WriteChunk(s.disk, id, index, body);
        DiskGrows(cfg, s, disk');
        assert OpOk(s.db, disk', s.nextId, ChunkWritten(ctx, id, index));
      }
    case ChunkWritten(ctx, id, index) =>
      if s.txn.Idle? { AddChunkKeeps(cfg, done, ctx, id, index); }
    case MakingStaging(_, id) =>
      DiskGrows(cfg, done, MakeStaging(s.disk, id));
    case RemovingStaging(_, id) =>
      DiskGrows(cfg, done, RemoveStaging(s.disk, id));
    case Deleting(_, key, meta) =>
      if s.txn.Idle? {
        var db' := s.db.(files := s.db.files[key := meta]);
        SameReservations(cfg, s.db, db', s.disk);
        FewerUploads(s.db, db', s.disk, s.nextId, done.ops);
      }
  }

  /** Every step keeps the invariant. */
  lemma StepKeeps(cfg: Config, s: State, step: Step)
    requires cfg.Valid() && Inv(cfg, s)
    ensures Inv(cfg, Next(cfg, s, step))
  {
    match step
    case AdmitStep(t) => if s.txn.Idle? { AdmitKeeps(cfg, s, t); }
    case CreateStep(ctx, path, content) => if MayWrite(s, ctx) { CreateKeeps(cfg, s, ctx, path, content); }
    case InitStep(r, ctx, req) => if MayWrite(s, ctx) && r !in s.ops { InitKeeps(cfg, s, r, ctx, req); }
    case FinalizeStep(ctx, id) => if MayWrite(s, ctx) { BeginKeeps(cfg, s, ctx, id); }
    case CopyStep(_) =>
    case PersistStep => if s.txn.Copying? { PersistKeeps(cfg, s); }
    case CommitStep(r) => if s.txn.Ready? && r !in s.ops { CommitKeeps(cfg, s, r); }
    case RollbackStep =>
    case CrashStep =>
    case ChunkStep(r, ctx, id, index, body) => ChunkStepKeeps(cfg, s, r, ctx, id, index, body);
    case DeleteStep(r, ctx, path) =>
      assert forall q :: q in s.ops ==> OpOk(s.db, s.disk, s.nextId, s.ops[q]);
    case ProceedStep(r) => if r in s.ops { ProceedKeeps(cfg, s, r); }
  }

  lemma InitHolds(cfg: Config)
    ensures Inv(cfg, Init())
  {
    var s := Init();
    forall t ensures WithinQuota(cfg, s.db, s.disk, t) {
      assert Unstored(cfg, s.db, s.disk, t) == map[];
    }
  }

  lemma {:induction false} RunKeeps(cfg: Config, s: State, steps: seq<Step>)
    requires cfg.Valid() && Inv(cfg, s)
    ensures Inv(cfg, Run(cfg, s, steps))
    decreases |steps|
  {
    if steps != [] {
      StepKeeps(cfg, s, steps[0]);
      RunKeeps(cfg, Next(cfg, s, steps[0]), steps[1..]);
    }
  }
}
