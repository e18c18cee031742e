/**
 * The server as a state machine over its smallest steps. One write transaction is open at a
 * time; reads, file writes and directory changes interleave with it freely, and the process
 * may die between any two steps.
 */
module Machine {
  import opened Prelude
  import opened Tables

  /** The one open write transaction. */
  datatype Txn =
    | Idle
      // finalize_upload, part-way through reassemble_chunks
    | Copying(ctx: Ctx, id: UploadId, next: nat, temp: Bytes)
      // only the commit is left; finalize removes a staging directory afterwards
    | Ready(owner: Tenant, tables: Db, cleanup: Option<UploadId>)

  /** A request that has done part of its work outside any write transaction. */
  datatype Op =
      // replace_chunk: after the read, before the file write
    | ChunkRead(ctx: Ctx, id: UploadId, index: nat, body: Bytes)
      // replace_chunk: after the file write, before add_chunk
    | ChunkWritten(ctx: Ctx, id: UploadId, index: nat)
      // create_upload: after the commit
    | MakingStaging(t: Tenant, id: UploadId)
      // finalize_upload: after the commit
    | RemovingStaging(t: Tenant, id: UploadId)
      // delete: after the read transaction
    | Deleting(t: Tenant, key: string, meta: FileMeta)
  {
    function Owner(): Tenant {
      match this
      case ChunkRead(ctx, _, _, _) => ctx.tenant
      case ChunkWritten(ctx, _, _) => ctx.tenant
      case MakingStaging(t, _) => t
      case RemovingStaging(t, _) => t
      case Deleting(t, _, _) => t
    }
  }

  /** Upload ids are numbered in order of issue, which makes every new one fresh. */
  datatype State = State(db: Db, disk: Disk, txn: Txn, ops: map<nat, Op>, nextId: UploadId)

  datatype Step =
    | AdmitStep(t: Tenant)
    | CreateStep(ctx: Ctx, path: Path, content: Bytes)
    | InitStep(r: nat, ctx: Ctx, req: InitRequest)
    | FinalizeStep(ctx: Ctx, id: UploadId)
      // `torn` is what is read of a chunk file that is being written
    | CopyStep(torn: Bytes)
    | PersistStep
    | CommitStep(r: nat)
    | RollbackStep
    | CrashStep
    | ChunkStep(r: nat, ctx: Ctx, id: UploadId, index: nat, body: Bytes)
    | DeleteStep(r: nat, ctx: Ctx, path: Path)
    | ProceedStep(r: nat)

  function Init(): State {
    State(Db(map[], map[], map[], {}), Disk(map[], map[]), Idle, map[], 0)
  }

  /** A caller past `tenant_registry_layer`, with the write lock to be had. */
  predicate MayWrite(s: State, ctx: Ctx) { s.txn.Idle? && ctx.tenant in s.db.tenants }

  ghost function Begin(cfg: Config, s: State, ctx: Ctx, id: UploadId): State {
    match CheckFinalize(s.db, ctx, id)
    case Err(_) => s
    case Ok(upload) =>
      if !Stored(cfg, s.disk, ctx.tenant, upload.totalHash) then
        s.(txn := Copying(ctx, id, 0, []))
      else if |s.disk.blobs[BlobAt(cfg, ctx.tenant, upload.totalHash)]| != upload.totalSize then
        s
      else
        s.(txn := Ready(ctx.tenant, FinalizeDb(s.db, ctx, upload, None), Some(id)))
  }

  /** Some request is about to write this chunk file, or in the middle of it. */
  predicate BeingWritten(s: State, id: UploadId, index: nat) {
    exists r :: r in s.ops && s.ops[r].ChunkRead? && s.ops[r].id == id && s.ops[r].index == index
  }

  /**
   * Append the next chunk file to the temporary file; a missing one fails the request, and of one
   * that is being written any bytes at all may be read.
   */
  function CopyChunk(s: State, torn: Bytes): State
    requires s.txn.Copying?
  {
    var Copying(ctx, id, next, temp) := s.txn;
    if id in s.disk.staging && next in s.disk.staging[id]
    then s.(txn := Copying(ctx, id, next + 1, temp + if BeingWritten(s, id, next) then torn else s.disk.staging[id][next]))
    else s.(txn := Idle)
  }

  /** Check the temporary file and rename it into the blob store, ahead of the commit. */
  ghost function Persist(cfg: Config, s: State): State
    requires s.txn.Copying? && s.txn.id in s.db.uploads
  {
    var Copying(ctx, id, _, temp) := s.txn;
    var upload := s.db.uploads[id];
    if CheckJoined(cfg, upload, temp).Err? then s.(txn := Idle)
    else
      s.(disk := s.disk.(blobs := s.disk.blobs[BlobAt(cfg, ctx.tenant, upload.totalHash) := temp]),
         txn := Ready(ctx.tenant, FinalizeDb(s.db, ctx, upload, Some(|temp|)), Some(id)))
  }

  function Commit(s: State, r: nat): State
    requires s.txn.Ready?
  {
    s.(db := s.txn.tables,
       txn := Idle,
       ops := match s.txn.cleanup
              case None => s.ops
              case Some(id) => s.ops[r := RemovingStaging(s.txn.owner, id)])
  }

  /** The next step of request `r`. */
  function Proceed(s: State, r: nat): State
    requires r in s.ops
  {
    var done := s.(ops := s.ops - {r});
    match s.ops[r]
    case ChunkRead(ctx, id, index, body) =>
      if id !in s.disk.staging then done
      else s.(disk := WriteChunk(s.disk, id, index, body), ops := s.ops[r := ChunkWritten(ctx, id, index)])
    case ChunkWritten(ctx, id, index) =>
      if s.txn.Idle? then done.(db := AddChunk(s.db, ctx, id, index)) else s
    case MakingStaging(_, id) => done.(disk := MakeStaging(s.disk, id))
    case RemovingStaging(_, id) => done.(disk := RemoveStaging(s.disk, id))
    case Deleting(_, key, meta) =>
      if s.txn.Idle? then done.(db := s.db.(files := s.db.files[key := meta])) else s
  }

  /** One step; a step that is not possible in `s` changes nothing. */
  ghost function Next(cfg: Config, s: State, step: Step): State {
    match step
    case AdmitStep(t) =>
      if s.txn.Idle? then s.(db := Admit(cfg, s.db, t).0) else s
    case CreateStep(ctx, path, content) =>
      if !MayWrite(s, ctx) then s
      else (match StageCreate(cfg, ctx, s.db, s.disk, path, content)
            case Err(_) => s
            case Ok((db, disk)) => s.(disk := disk, txn := Ready(ctx.tenant, db, None)))
    case InitStep(r, ctx, req) =>
      if !MayWrite(s, ctx) || r in s.ops then s
      else (match StageUpload(cfg, ctx, s.db, s.disk, req, s.nextId)
            case Err(_) => s
            case Ok(db) => s.(db := db, nextId := s.nextId + 1, ops := s.ops[r := MakingStaging(ctx.tenant, s.nextId)]))
    case FinalizeStep(ctx, id) =>
      if MayWrite(s, ctx) then Begin(cfg, s, ctx, id) else s
    case CopyStep(torn) =>
      if s.txn.Copying? && s.txn.id in s.db.uploads && s.txn.next < s.db.uploads[s.txn.id].chunkCount
      then CopyChunk(s, torn) else s
    case PersistStep =>
      if s.txn.Copying? && s.txn.id in s.db.uploads && s.txn.next == s.db.uploads[s.txn.id].chunkCount
      then Persist(cfg, s) else s
    case CommitStep(r) =>
      if s.txn.Ready? && r !in s.ops then Commit(s, r) else s
    case RollbackStep => s.(txn := Idle)
    case CrashStep => s.(txn := Idle, ops := map[])
    case ChunkStep(r, ctx, id, index, body) =>
      if ctx.tenant !in s.db.tenants || r in s.ops || CheckChunk(s.db, ctx, id, index).Err? then s
      else s.(ops := s.ops[r := ChunkRead(ctx, id, index, body)])
    case DeleteStep(r, ctx, path) =>
      var key := MakeKey(ctx.tenant, path);
      if ctx.tenant !in s.db.tenants || r in s.ops || key !in s.db.files then s
      else s.(ops := s.ops[r := Deleting(ctx.tenant, key, s.db.files[key].(isDeleted := true))])
    case ProceedStep(r) =>
      if r in s.ops then Proceed(s, r) else s
  }

  /** Only four kinds of step change the committed tables. */
  lemma TablesFixed(cfg: Config, s: State, step: Step)
    requires !step.AdmitStep? && !step.InitStep? && !step.CommitStep? && !step.ProceedStep?
    ensures Next(cfg, s, step).db == s.db
  {
  }

  /** Only two kinds of step store a blob, and only a request's next step changes staged chunks. */
  lemma DiskFixed(cfg: Config, s: State, step: Step)
    ensures !step.CreateStep? && !step.PersistStep? ==> Next(cfg, s, step).disk.blobs == s.disk.blobs
    ensures !step.ProceedStep? ==> Next(cfg, s, step).disk.staging == s.disk.staging
  {
  }

  ghost function Run(cfg: Config, s: State, steps: seq<Step>): State
    decreases |steps|
  {
    if steps == [] then s else Run(cfg, Next(cfg, s, steps[0]), steps[1..])
  }

  lemma {:induction false} RunAppend(cfg: Config, s: State, a: seq<Step>, b: seq<Step>)
    ensures Run(cfg, s, a + b) == Run(cfg, Run(cfg, s, a), b)
    decreases |a|
  {
    if a == [] {
      assert a + b == b;
    } else {
      assert (a + b)[0] == a[0] && (a + b)[1..] == a[1..] + b;
      RunAppend(cfg, Next(cfg, s, a[0]), a[1..], b);
    }
  }

  /** The state after one more step. */
  lemma RunNext(cfg: Config, s: State, steps: seq<Step>, k: nat)
    requires k < |steps|
    ensures Run(cfg, s, steps[..k + 1]) == Next(cfg, Run(cfg, s, steps[..k]), steps[k])
  {
    assert steps[..k + 1] == steps[..k] + [steps[k]];
    RunAppend(cfg, s, steps[..k], [steps[k]]);
    var mid := Run(cfg, s, steps[..k]);
    assert Run(cfg, Next(cfg, mid, steps[k]), []) == Next(cfg, mid, steps[k]);
  }

  lemma RunTwo(cfg: Config, s: State, a: Step, b: Step)
    ensures Run(cfg, s, [a, b]) == Next(cfg, Next(cfg, s, a), b)
  {
    assert [a, b][1..] == [b];
    assert Run(cfg, Next(cfg, s, a), [b]) == Next(cfg, Next(cfg, s, a), b);
  }

  lemma RunFour(cfg: Config, s: State, a: Step, b: Step, c: Step, d: Step)
    ensures Run(cfg, s, [a, b, c, d]) == Next(cfg, Next(cfg, Next(cfg, Next(cfg, s, a), b), c), d)
  {
    var s1 := Next(cfg, s, a);
    var s2 := Next(cfg, s1, b);
    var s3 := Next(cfg, s2, c);
    assert [a, b, c, d][1..] == [b, c, d];
    assert [b, c, d][1..] == [c, d];
    assert [c, d][1..] == [d];
    assert Run(cfg, s3, [d]) == Next(cfg, s3, d);
    assert Run(cfg, s2, [c, d]) == Run(cfg, s3, [d]);
    assert Run(cfg, s1, [b, c, d]) == Run(cfg, s2, [c, d]);
  }

  /** Runs in which no process dies and no transaction is rolled back after an I/O error. */
  predicate CrashFree(steps: seq<Step>) {
    forall i :: 0 <= i < |steps| ==> !steps[i].CrashStep? && !steps[i].RollbackStep?
  }
}
