/** No tenant can see or disturb another. */
module Isolation {
  import opened Prelude
  import opened Tables
  import opened Machine
  import opened Invariants

  /** Everything the server holds for one tenant. */
  datatype View = View(
    rows: map<string, FileMeta>,
    uploads: map<UploadId, Upload>,
    usage: Option<nat>,
    blobs: map<BlobPath, Bytes>,
    staged: map<UploadId, map<nat, Bytes>>)

  ghost function Rows(db: Db, t: Tenant): map<string, FileMeta> {
    map key | key in db.files && InNamespace(key, t) :: db.files[key]
  }

  ghost function Uploads(db: Db, t: Tenant): map<UploadId, Upload> {
    map id | id in db.uploads && db.uploads[id].tenant == t :: db.uploads[id]
  }

  ghost function Usage(db: Db, t: Tenant): Option<nat> {
    if t in db.usages then Some(db.usages[t]) else None
  }

  ghost function Blobs(cfg: Config, disk: Disk, t: Tenant): map<BlobPath, Bytes> {
    map b | b in disk.blobs && b.ns == cfg.nsHash(t) :: disk.blobs[b]
  }

  ghost function StagedOf(db: Db, disk: Disk, t: Tenant): map<UploadId, map<nat, Bytes>> {
    map id | id in disk.staging && id in db.uploads && db.uploads[id].tenant == t :: disk.staging[id]
  }

  ghost function ViewOf(cfg: Config, s: State, t: Tenant): View {
    View(Rows(s.db, t), Uploads(s.db, t), Usage(s.db, t), Blobs(cfg, s.disk, t), StagedOf(s.db, s.disk, t))
  }

  ghost predicate SameTables(db: Db, db': Db, t: Tenant) {
    Rows(db, t) == Rows(db', t) && Uploads(db, t) == Uploads(db', t) && Usage(db, t) == Usage(db', t)
  }

  ghost predicate RowKeyed(key: string, meta: FileMeta, tenants: set<Tenant>) {
    key == MakeKey(meta.tenant, meta.path) && meta.tenant in tenants
  }

  ghost predicate RowsKeyed(files: map<string, FileMeta>, tenants: set<Tenant>) {
    forall key :: key in files ==> RowKeyed(key, files[key], tenants)
  }

  ghost predicate OpKeyed(op: Op, tenants: set<Tenant>) {
    op.Owner() in tenants
    && (op.Deleting? ==> InNamespace(op.key, op.t) && RowKeyed(op.key, op.meta, tenants))
  }

  /** Tenant ids are NUL-free, rows sit under their own key, an open transaction touches its owner only. */
  ghost predicate IsolationInv(s: State) {
    && (forall t :: t in s.db.tenants ==> NulFree(t))
    && RowsKeyed(s.db.files, s.db.tenants)
    && (forall r :: r in s.ops ==> OpKeyed(s.ops[r], s.db.tenants))
    && (s.txn.Copying? ==> s.txn.ctx.tenant in s.db.tenants)
    && (s.txn.Ready? ==>
          && s.txn.owner in s.db.tenants
          && s.txn.tables.tenants == s.db.tenants
          && RowsKeyed(s.txn.tables.files, s.db.tenants)
          && forall u :: u != s.txn.owner && NulFree(u) ==> SameTables(s.db, s.txn.tables, u))
  }

  predicate NulFreeStep(step: Step) { step.AdmitStep? ==> NulFree(step.t) }

  /** On whose behalf a step runs; crashes and rollbacks are nobody's. */
  function Actor(s: State, step: Step): Option<Tenant> {
    match step
    case AdmitStep(t) => Some(t)
    case CreateStep(ctx, _, _) => Some(ctx.tenant)
    case InitStep(_, ctx, _) => Some(ctx.tenant)
    case FinalizeStep(ctx, _) => Some(ctx.tenant)
    case ChunkStep(_, ctx, _, _, _) => Some(ctx.tenant)
    case DeleteStep(_, ctx, _) => Some(ctx.tenant)
    case ProceedStep(r) => if r in s.ops then Some(s.ops[r].Owner()) else None
    case RollbackStep => None
    case CrashStep => None
    case CopyStep(_) => TxnOwner(s.txn)
    case PersistStep => TxnOwner(s.txn)
    case CommitStep(_) => TxnOwner(s.txn)
  }

  function TxnOwner(txn: Txn): Option<Tenant> {
    match txn
    case Idle => None
    case Copying(ctx, _, _, _) => Some(ctx.tenant)
    case Ready(t, _, _) => Some(t)
  }

  lemma WithRowIsolated(db: Db, ctx: Ctx, path: Path, size: nat, hash: Hash, u: Tenant)
    requires u != ctx.tenant && NulFree(u) && NulFree(ctx.tenant)
    ensures Rows(db.(files := WithRow(db.files, ctx, path, size, hash)), u) == Rows(db, u)
  {
    var key := MakeKey(ctx.tenant, path);
    KeyInNamespace(ctx.tenant, path);
    if InNamespace(key, u) { NamespacesDisjoint(key, ctx.tenant, u); }
  }

  lemma CreateIsolated(cfg: Config, s: State, ctx: Ctx, path: Path, content: Bytes, u: Tenant)
    requires IsolationInv(s) && ctx.tenant in s.db.tenants && u != ctx.tenant && NulFree(u)
    requires StageCreate(cfg, ctx, s.db, s.disk, path, content).Ok?
    ensures SameTables(s.db, StageCreate(cfg, ctx, s.db, s.disk, path, content).value.0, u)
  {
    WithRowIsolated(s.db, ctx, path, |content|, cfg.hash(content), u);
    var db' := StageCreate(cfg, ctx, s.db, s.disk, path, content).value.0;
    assert Rows(db', u) == Rows(s.db.(files := db'.files), u);
  }

  lemma FinalizeIsolated(db: Db, ctx: Ctx, id: UploadId, charge: Option<nat>, u: Tenant)
    requires u != ctx.tenant && NulFree(u) && NulFree(ctx.tenant)
    requires Owns(db, ctx.tenant, id) && db.uploads[id].id == id
    ensures SameTables(db, FinalizeDb(db, ctx, db.uploads[id], charge), u)
  {
    var upload := db.uploads[id];
    WithRowIsolated(db, ctx, upload.path, upload.totalSize, upload.totalHash, u);
    var db' := FinalizeDb(db, ctx, upload, charge);
    assert Rows(db', u) == Rows(db.(files := db'.files), u);
  }

  lemma CreateKeepsIsolation(cfg: Config, s: State, ctx: Ctx, path: Path, content: Bytes)
    requires IsolationInv(s) && MayWrite(s, ctx)
    ensures IsolationInv(Next(cfg, s, CreateStep(ctx, path, content)))
  {
    var staged := StageCreate(cfg, ctx, s.db, s.disk, path, content);
    if staged.Ok? {
      forall u | u != ctx.tenant && NulFree(u) ensures SameTables(s.db, staged.value.0, u) {
        CreateIsolated(cfg, s, ctx, path, content, u);
      }
    }
  }

  lemma FinalizeKeepsIsolation(s: State, ctx: Ctx, id: UploadId, charge: Option<nat>, disk': Disk)
    requires IsolationInv(s) && ctx.tenant in s.db.tenants
    requires Owns(s.db, ctx.tenant, id) && s.db.uploads[id].id == id
    ensures IsolationInv(s.(disk := disk', txn := Ready(ctx.tenant, FinalizeDb(s.db, ctx, s.db.uploads[id], charge), Some(id))))
  {
    forall u | u != ctx.tenant && NulFree(u)
      ensures SameTables(s.db, FinalizeDb(s.db, ctx, s.db.uploads[id], charge), u)
    {
      FinalizeIsolated(s.db, ctx, id, charge, u);
    }
  }

  lemma InitKeepsIsolation(cfg: Config, s: State, r: nat, ctx: Ctx, req: InitRequest)
    requires IsolationInv(s) && MayWrite(s, ctx)
    ensures IsolationInv(Next(cfg, s, InitStep(r, ctx, req)))
  {
  }

  lemma RequestKeepsIsolation(cfg: Config, s: State, step: Step)
    requires IsolationInv(s) && (step.ChunkStep? || step.DeleteStep?)
    ensures IsolationInv(Next(cfg, s, step))
  {
    if step.DeleteStep? { KeyInNamespace(step.ctx.tenant, step.path); }
  }

  lemma ProceedKeepsIsolation(s: State, r: nat)
    requires IsolationInv(s) && r in s.ops
    ensures IsolationInv(Proceed(s, r))
  {
    var s' := Proceed(s, r);
    assert OpKeyed(s.ops[r], s.db.tenants);
    assert s'.db.tenants == s.db.tenants && s'.txn == s.txn;
    assert RowsKeyed(s'.db.files, s.db.tenants);
    if s.txn.Ready? { assert s'.db == s.db; }
  }

  lemma StepKeepsIsolation(cfg: Config, s: State, step: Step)
    requires Inv(cfg, s) && IsolationInv(s) && NulFreeStep(step)
    ensures IsolationInv(Next(cfg, s, step))
  {
    match step
    case AdmitStep(t) =>
    case CreateStep(ctx, path, content) => if MayWrite(s, ctx) { CreateKeepsIsolation(cfg, s, ctx, path, content); }
    case InitStep(r, ctx, req) => if MayWrite(s, ctx) { InitKeepsIsolation(cfg, s, r, ctx, req); }
    case FinalizeStep(ctx, id) =>
      if MayWrite(s, ctx) && Owns(s.db, ctx.tenant, id) {
        assert UploadOk(s.db, s.disk, s.nextId, id);
        FinalizeKeepsIsolation(s, ctx, id, None, s.disk);
      }
    case CopyStep(_) =>
    case PersistStep =>
      if s.txn.Copying? {
        assert UploadOk(s.db, s.disk, s.nextId, s.txn.id);
        FinalizeKeepsIsolation(s, s.txn.ctx, s.txn.id, Some(|s.txn.temp|), Persist(cfg, s).disk);
      }
    case CommitStep(r) =>
    case RollbackStep =>
    case CrashStep =>
    case ChunkStep(_, _, _, _, _) => RequestKeepsIsolation(cfg, s, step);
    case DeleteStep(_, _, _) => RequestKeepsIsolation(cfg, s, step);
    case ProceedStep(r) => if r in s.ops { ProceedKeepsIsolation(s, r); }
  }

  ghost predicate NamespaceIsOwn(cfg: Config, u: Tenant) {
    forall t :: NulFree(t) && cfg.nsHash(t) == cfg.nsHash(u) ==> t == u
  }

  /** What a view depends on. */
  lemma SameView(cfg: Config, s: State, s': State, u: Tenant)
    requires SameTables(s.db, s'.db, u)
    requires forall id :: id in s.db.uploads && s.db.uploads[id].tenant == u ==>
      (id in s'.disk.staging <==> id in s.disk.staging)
      && (id in s.disk.staging ==> s'.disk.staging[id] == s.disk.staging[id])
    requires forall b :: b in s'.disk.blobs && b.ns == cfg.nsHash(u) ==> b in s.disk.blobs
    requires forall b :: b in s.disk.blobs ==> b in s'.disk.blobs && s'.disk.blobs[b] == s.disk.blobs[b]
    ensures ViewOf(cfg, s', u) == ViewOf(cfg, s, u)
  {
    assert Blobs(cfg, s'.disk, u) == Blobs(cfg, s.disk, u);
    forall id ensures id in s.db.uploads && s.db.uploads[id].tenant == u
      <==> id in s'.db.uploads && s'.db.uploads[id].tenant == u
    {
      assert id in Uploads(s.db, u) <==> id in Uploads(s'.db, u);
    }
    assert StagedOf(s'.db, s'.disk, u) == StagedOf(s.db, s.disk, u);
  }

  lemma DeletingIsolated(db: Db, key: string, meta: FileMeta, t: Tenant, u: Tenant)
    requires InNamespace(key, t) && NulFree(t) && NulFree(u) && t != u
    ensures SameTables(db, db.(files := db.files[key := meta]), u)
  {
    if InNamespace(key, u) { NamespacesDisjoint(key, t, u); }
    assert Rows(db.(files := db.files[key := meta]), u) == Rows(db, u);
  }

  lemma ProceedIsolated(cfg: Config, s: State, r: nat, u: Tenant)
    requires Inv(cfg, s) && IsolationInv(s) && NulFree(u)
    requires r in s.ops && s.ops[r].Owner() != u
    ensures ViewOf(cfg, Proceed(s, r), u) == ViewOf(cfg, s, u)
  {
    var op := s.ops[r];
    var s' := Proceed(s, r);
    assert OpOk(s.db, s.disk, s.nextId, op);
    assert OpKeyed(op, s.db.tenants);
    if op.Deleting? {
      DeletingIsolated(s.db, op.key, op.meta, op.t, u);
    } else {
      assert SameTables(s.db, s'.db, u);
    }
    SameView(cfg, s, s', u);
  }

  lemma TablesIsolated(cfg: Config, s: State, step: Step, u: Tenant)
    requires Inv(cfg, s) && IsolationInv(s) && NulFree(u) && !step.ProceedStep?
    requires Actor(s, step) != Some(u)
    ensures SameTables(s.db, Next(cfg, s, step).db, u)
    ensures Next(cfg, s, step).disk.staging == s.disk.staging
  {
    DiskFixed(cfg, s, step);
    if step.InitStep? {
      InitIsolated(cfg, s, step.r, step.ctx, step.req, u);
    } else if !step.AdmitStep? && !step.CommitStep? {
      TablesFixed(cfg, s, step);
    }
  }

  lemma InitIsolated(cfg: Config, s: State, r: nat, ctx: Ctx, req: InitRequest, u: Tenant)
    requires Inv(cfg, s) && ctx.tenant != u
    ensures SameTables(s.db, Next(cfg, s, InitStep(r, ctx, req)).db, u)
  {
    assert forall id :: id in s.db.uploads ==> UploadOk(s.db, s.disk, s.nextId, id);
    var db' := Next(cfg, s, InitStep(r, ctx, req)).db;
    assert Uploads(db', u) == Uploads(s.db, u);
  }

  /** A blob appears under the namespace of the step's own tenant, if anywhere. */
  lemma BlobsIsolated(cfg: Config, s: State, step: Step, u: Tenant)
    requires Inv(cfg, s) && IsolationInv(s) && NamespaceIsOwn(cfg, u)
    requires Actor(s, step) != Some(u)
    ensures var s' := Next(cfg, s, step);
            && (forall b :: b in s'.disk.blobs && b.ns == cfg.nsHash(u) ==> b in s.disk.blobs)
            && (forall b :: b in s.disk.blobs ==> b in s'.disk.blobs && s'.disk.blobs[b] == s.disk.blobs[b])
  {
  }

  /** A step that is not the tenant's own leaves all it can see as it was. */
  lemma StepIsolated(cfg: Config, s: State, step: Step, u: Tenant)
    requires Inv(cfg, s) && IsolationInv(s) && NulFree(u) && NamespaceIsOwn(cfg, u)
    requires Actor(s, step) != Some(u)
    ensures ViewOf(cfg, Next(cfg, s, step), u) == ViewOf(cfg, s, u)
  {
    if step.ProceedStep? {
      if step.r in s.ops { ProceedIsolated(cfg, s, step.r, u); }
    } else {
      TablesIsolated(cfg, s, step, u);
      BlobsIsolated(cfg, s, step, u);
      SameView(cfg, s, Next(cfg, s, step), u);
    }
  }

  ghost predicate WithoutTenant(cfg: Config, s: State, steps: seq<Step>, u: Tenant)
    decreases |steps|
  {
    steps == [] || (Actor(s, steps[0]) != Some(u) && WithoutTenant(cfg, Next(cfg, s, steps[0]), steps[1..], u))
  }

  /** Whole runs by other tenants, crashes included, leave a tenant's view as it was. */
  lemma {:induction false} RunIsolated(cfg: Config, s: State, steps: seq<Step>, u: Tenant)
    requires cfg.Valid() && Inv(cfg, s) && IsolationInv(s) && NulFree(u)
    requires forall i :: 0 <= i < |steps| ==> NulFreeStep(steps[i])
    requires NamespaceIsOwn(cfg, u) && WithoutTenant(cfg, s, steps, u)
    ensures ViewOf(cfg, Run(cfg, s, steps), u) == ViewOf(cfg, s, u)
    decreases |steps|
  {
    if steps != [] {
      StepIsolated(cfg, s, steps[0], u);
      StepKeeps(cfg, s, steps[0]);
      StepKeepsIsolation(cfg, s, steps[0]);
      RunIsolated(cfg, Next(cfg, s, steps[0]), steps[1..], u);
    }
  }

  lemma {:induction false} RunKeepsIsolation(cfg: Config, s: State, steps: seq<Step>)
    requires cfg.Valid() && Inv(cfg, s) && IsolationInv(s)
    requires forall i :: 0 <= i < |steps| ==> NulFreeStep(steps[i])
    ensures IsolationInv(Run(cfg, s, steps))
    decreases |steps|
  {
    if steps != [] {
      StepKeeps(cfg, s, steps[0]);
      StepKeepsIsolation(cfg, s, steps[0]);
      RunKeepsIsolation(cfg, Next(cfg, s, steps[0]), steps[1..]);
    }
  }

  /** Filtering on the key prefix returns exactly the caller's own live rows. */
  lemma ListedAreOwn(s: State, u: Tenant)
    requires IsolationInv(s) && NulFree(u)
    ensures forall key :: key in Listed(s.db.files, u) <==>
              key in s.db.files && s.db.files[key].tenant == u && !s.db.files[key].isDeleted
  {
    forall key | key in s.db.files
      ensures InNamespace(key, u) <==> s.db.files[key].tenant == u
    {
      var meta := s.db.files[key];
      KeyInNamespace(meta.tenant, meta.path);
      if InNamespace(key, u) { NamespacesDisjoint(key, meta.tenant, u); }
    }
  }

  /**
   * From an empty server, in every reachable state: a tenant lists exactly its own live rows, and
   * whatever the others then do, its view stays as it is.
   */
  lemma TenantsAreIsolated(cfg: Config, before: seq<Step>, later: seq<Step>, u: Tenant)
    requires cfg.Valid() && NulFree(u) && NamespaceIsOwn(cfg, u)
    requires forall i :: 0 <= i < |before| ==> NulFreeStep(before[i])
    requires forall i :: 0 <= i < |later| ==> NulFreeStep(later[i])
    ensures var s := Run(cfg, Init(), before);
            && (forall key :: key in Listed(s.db.files, u) <==>
                  key in s.db.files && s.db.files[key].tenant == u && !s.db.files[key].isDeleted)
            && (WithoutTenant(cfg, s, later, u) ==>
                  ViewOf(cfg, Run(cfg, Init(), before + later), u) == ViewOf(cfg, s, u))
  {
    InitHolds(cfg);
    RunKeeps(cfg, Init(), before);
    RunKeepsIsolation(cfg, Init(), before);
    RunAppend(cfg, Init(), before, later);
    var s := Run(cfg, Init(), before);
    ListedAreOwn(s, u);
    if WithoutTenant(cfg, s, later, u) { RunIsolated(cfg, s, later, u); }
  }
}
