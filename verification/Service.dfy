/** The service calls as a lone caller sees them, each shown to be a run of the state machine. */
module Service {
  import opened Prelude
  import opened Chunks
  import opened Tables
  import opened Machine
  import opened Invariants
  import opened Safety

  predicate Quiet(s: State) { s.txn.Idle? && s.ops == map[] }

  ghost function CreateFile(cfg: Config, s: State, ctx: Ctx, path: Path, content: Bytes): (State, Result<FileMeta>) {
    match StageCreate(cfg, ctx, s.db, s.disk, path, content)
    case Err(e) => (s, Err(e))
    case Ok((db, disk)) =>
      (s.(db := db, disk := disk), Ok(PutRow(s.db.files, ctx, path, |content|, cfg.hash(content))))
  }

  ghost function CreateUpload(cfg: Config, s: State, ctx: Ctx, req: InitRequest): (State, Result<UploadId>) {
    match StageUpload(cfg, ctx, s.db, s.disk, req, s.nextId)
    case Err(e) => (s, Err(e))
    case Ok(db) =>
      (s.(db := db, disk := MakeStaging(s.disk, s.nextId), nextId := s.nextId + 1), Ok(s.nextId))
  }

  function ReplaceChunk(s: State, ctx: Ctx, id: UploadId, index: nat, body: Bytes): (State, Result<()>) {
    match CheckChunk(s.db, ctx, id, index)
    case Err(e) => (s, Err(e))
    case Ok(_) =>
      if id !in s.disk.staging then (s, Err(Io))
      else (s.(db := AddChunk(s.db, ctx, id, index), disk := WriteChunk(s.disk, id, index, body)), Ok(()))
  }

  function ChunksOf(disk: Disk, id: UploadId): map<nat, Bytes> {
    if id in disk.staging then disk.staging[id] else map[]
  }

  predicate AllStaged(disk: Disk, id: UploadId, count: nat) {
    forall i :: 0 <= i < count ==> i in ChunksOf(disk, id)
  }

  function Finish(s: State, ctx: Ctx, upload: Upload, charge: Option<nat>, disk: Disk): (State, Result<FileMeta>) {
    (s.(db := FinalizeDb(s.db, ctx, upload, charge), disk := RemoveStaging(disk, upload.id)),
     Ok(PutRow(s.db.files, ctx, upload.path, upload.totalSize, upload.totalHash)))
  }

  function FinalizeUpload(cfg: Config, s: State, ctx: Ctx, id: UploadId): (State, Result<FileMeta>) {
    match CheckFinalize(s.db, ctx, id)
    case Err(e) => (s, Err(e))
    case Ok(upload) =>
      var blob := BlobAt(cfg, ctx.tenant, upload.totalHash);
      if blob in s.disk.blobs then
        if |s.disk.blobs[blob]| != upload.totalSize then (s, Err(Validation))
        else Finish(s, ctx, upload, None, s.disk)
      else if !AllStaged(s.disk, id, upload.chunkCount) then (s, Err(Io))
      else
        var joined := Joined(ChunksOf(s.disk, id), upload.chunkCount);
        match CheckJoined(cfg, upload, joined)
        case Err(e) => (s, Err(e))
        case Ok(_) => Finish(s, ctx, upload, Some(|joined|), s.disk.(blobs := s.disk.blobs[blob := joined]))
  }

  /** What a finalize that succeeds has done to the tables. */
  lemma FinalizedTables(cfg: Config, s: State, ctx: Ctx, id: UploadId)
    requires FinalizeUpload(cfg, s, ctx, id).1.Ok? && s.db.uploads[id].id == id
    ensures var (s', r) := FinalizeUpload(cfg, s, ctx, id);
            var upload := s.db.uploads[id];
            && s'.db.files == WithRow(s.db.files, ctx, upload.path, upload.totalSize, upload.totalHash)
            && s'.db.uploads == s.db.uploads - {id} && s'.disk.staging == s.disk.staging - {id}
            && r.value == PutRow(s.db.files, ctx, upload.path, upload.totalSize, upload.totalHash)
  {
  }

  function DeleteFile(s: State, ctx: Ctx, path: Path): State {
    s.(db := s.db.(files := MarkDeleted(s.db.files, MakeKey(ctx.tenant, path))))
  }

  /** A range request: whole from 0, the rest from inside the file, refused at or past its end. */
  function ServeRange(content: Bytes, start: nat): Result<(bool, Bytes)> {
    if start == 0 then Ok((false, content))
    else if start < |content| then Ok((true, content[start..]))
    else Err(Validation)
  }

  /** `get_file`: the row, deleted or not, and the blob behind it. */
  function ServeFile(cfg: Config, s: State, ctx: Ctx, path: Path, start: nat): Result<(bool, Bytes)> {
    var key := MakeKey(ctx.tenant, path);
    if key !in s.db.files then Err(NotFound)
    else
      var blob := BlobAt(cfg, ctx.tenant, s.db.files[key].contentHash);
      if blob !in s.disk.blobs then Err(NotFound) else ServeRange(s.disk.blobs[blob], start)
  }

  // ---- as runs of the machine ----

  lemma CreateFileRuns(cfg: Config, s: State, ctx: Ctx, path: Path, content: Bytes)
    requires Quiet(s) && ctx.tenant in s.db.tenants
    ensures Run(cfg, s, [CreateStep(ctx, path, content), CommitStep(0)]) == CreateFile(cfg, s, ctx, path, content).0
  {
    RunTwo(cfg, s, CreateStep(ctx, path, content), CommitStep(0));
  }

  lemma CreateUploadRuns(cfg: Config, s: State, ctx: Ctx, req: InitRequest)
    requires Quiet(s) && ctx.tenant in s.db.tenants
    ensures Run(cfg, s, [InitStep(0, ctx, req), ProceedStep(0)]) == CreateUpload(cfg, s, ctx, req).0
  {
    RunTwo(cfg, s, InitStep(0, ctx, req), ProceedStep(0));
    assert Next(cfg, s, InitStep(0, ctx, req)).ops - {0} == map[];
  }

  lemma ReplaceChunkRuns(cfg: Config, s: State, ctx: Ctx, id: UploadId, index: nat, body: Bytes)
    requires Quiet(s) && ctx.tenant in s.db.tenants
    ensures Run(cfg, s, [ChunkStep(0, ctx, id, index, body), ProceedStep(0), ProceedStep(0)])
            == ReplaceChunk(s, ctx, id, index, body).0
  {
    var steps := [ChunkStep(0, ctx, id, index, body), ProceedStep(0), ProceedStep(0)];
    assert steps[1..] == [ProceedStep(0), ProceedStep(0)];
    RunTwo(cfg, Next(cfg, s, steps[0]), ProceedStep(0), ProceedStep(0));
    assert map[0 := ChunkRead(ctx, id, index, body)] - {0} == map[];
    assert map[0 := ChunkRead(ctx, id, index, body)][0 := ChunkWritten(ctx, id, index)] - {0} == map[];
  }

  lemma DeleteFileRuns(cfg: Config, s: State, ctx: Ctx, path: Path)
    requires Quiet(s) && ctx.tenant in s.db.tenants
    ensures Run(cfg, s, [DeleteStep(0, ctx, path), ProceedStep(0)]) == DeleteFile(s, ctx, path)
  {
    RunTwo(cfg, s, DeleteStep(0, ctx, path), ProceedStep(0));
    assert Next(cfg, s, DeleteStep(0, ctx, path)).ops - {0} == map[];
  }

  function Copies(n: nat): seq<Step> { seq(n, _ => CopyStep([])) }

  /** The copying loop, from chunk `next` on. */
  lemma {:induction false} CopyLoop(cfg: Config, s: State, n: nat)
    requires s.txn.Copying? && s.txn.id in s.db.uploads && s.ops == map[]
    requires s.txn.next + n == s.db.uploads[s.txn.id].chunkCount
    requires AllStaged(s.disk, s.txn.id, s.txn.next + n)
    requires s.txn.temp == Joined(ChunksOf(s.disk, s.txn.id), s.txn.next)
    ensures Run(cfg, s, Copies(n))
            == s.(txn := Copying(s.txn.ctx, s.txn.id, s.txn.next + n, Joined(ChunksOf(s.disk, s.txn.id), s.txn.next + n)))
    decreases n
  {
    if n > 0 {
      assert s.txn.next in ChunksOf(s.disk, s.txn.id);
      assert Copies(n)[1..] == Copies(n - 1);
      CopyLoop(cfg, Next(cfg, s, CopyStep([])), n - 1);
    }
  }

  function FinalizeSteps(ctx: Ctx, id: UploadId, count: nat): seq<Step> {
    [FinalizeStep(ctx, id)] + (Copies(count) + ([PersistStep, CommitStep(0)] + [ProceedStep(0)]))
  }

  lemma FinalizeRuns(cfg: Config, s: State, ctx: Ctx, id: UploadId)
    requires cfg.Valid() && Inv(cfg, s) && Quiet(s) && ctx.tenant in s.db.tenants && Owns(s.db, ctx.tenant, id)
    ensures Run(cfg, s, FinalizeSteps(ctx, id, s.db.uploads[id].chunkCount)) == FinalizeUpload(cfg, s, ctx, id).0
  {
    var upload := s.db.uploads[id];
    var n := upload.chunkCount;
    assert UploadOk(s.db, s.disk, s.nextId, id);
    var tail := [PersistStep, CommitStep(0)] + [ProceedStep(0)];
    var steps := FinalizeSteps(ctx, id, n);
    assert steps[0] == FinalizeStep(ctx, id) && steps[1..] == Copies(n) + tail;
    var s1 := Next(cfg, s, FinalizeStep(ctx, id));
    RunAppend(cfg, s1, Copies(n), tail);
    if s1.txn.Copying? {
      CompleteIsStaged(s.db, s.disk, s.nextId, id);
      forall i | 0 <= i < n ensures i in ChunksOf(s.disk, id) { assert Staged(s.disk, id, i); }
      CopyLoop(cfg, s1, n);
    } else {
      CopiesIdle(cfg, s1, n);
    }
    FinalizeTail(cfg, Run(cfg, s1, Copies(n)));
  }

  /** Persist if there is something to, commit, clean up. */
  function Tail(s: State): State
    requires s.txn.Ready? && s.txn.cleanup.Some?
  {
    s.(db := s.txn.tables, txn := Idle, disk := RemoveStaging(s.disk, s.txn.cleanup.value))
  }

  lemma FinalizeTail(cfg: Config, s: State)
    requires s.ops == map[] && (s.txn.Ready? ==> s.txn.cleanup.Some?)
    ensures var s' := Run(cfg, s, [PersistStep, CommitStep(0)] + [ProceedStep(0)]);
            var persisted := Next(cfg, s, PersistStep);
            s' == if persisted.txn.Ready? then Tail(persisted) else persisted
  {
    RunAppend(cfg, s, [PersistStep, CommitStep(0)], [ProceedStep(0)]);
    RunTwo(cfg, s, PersistStep, CommitStep(0));
    var s3 := Next(cfg, Next(cfg, s, PersistStep), CommitStep(0));
    assert Run(cfg, s3, [ProceedStep(0)]) == Next(cfg, s3, ProceedStep(0));
    if s3.ops != map[] { assert s3.ops - {0} == map[]; }
  }

  lemma {:induction false} CopiesIdle(cfg: Config, s: State, n: nat)
    requires !s.txn.Copying?
    ensures Run(cfg, s, Copies(n)) == s
  {
    if n > 0 {
      assert Copies(n)[1..] == Copies(n - 1);
      CopiesIdle(cfg, s, n - 1);
    }
  }

  // ---- chunked uploads ----

  /** Send the chunks of `file` numbered in `order`, whatever order that is and however often. */
  function SendChunks(s: State, ctx: Ctx, id: UploadId, file: Bytes, order: seq<nat>): State
    decreases |order|
  {
    if order == [] then s
    else
      var before := SendChunks(s, ctx, id, file, order[..|order| - 1]);
      var index := order[|order| - 1];
      ReplaceChunk(before, ctx, id, index, Slice(file, index)).0
  }

  lemma {:induction false} SendChunksAppend(s: State, ctx: Ctx, id: UploadId, file: Bytes, a: seq<nat>, b: seq<nat>)
    ensures SendChunks(SendChunks(s, ctx, id, file, a), ctx, id, file, b) == SendChunks(s, ctx, id, file, a + b)
    decreases |b|
  {
    if b == [] {
      assert a + b == a;
    } else {
      var k := |b| - 1;
      assert (a + b)[..|a + b| - 1] == a + b[..k] && (a + b)[|a + b| - 1] == b[k];
      SendChunksAppend(s, ctx, id, file, a, b[..k]);
    }
  }

  /** Sending changes nothing in the tables but the upload's received list. */
  lemma {:induction false} SendingFrame(s: State, ctx: Ctx, id: UploadId, file: Bytes, order: seq<nat>)
    requires Owns(s.db, ctx.tenant, id)
    ensures var s' := SendChunks(s, ctx, id, file, order);
            && id in s'.db.uploads
            && s'.db == s.db.(uploads := s.db.uploads[id := s.db.uploads[id].(chunksReceived := s'.db.uploads[id].chunksReceived)])
            && s'.disk.blobs == s.disk.blobs
    decreases |order|
  {
    if order != [] {
      SendingFrame(s, ctx, id, file, order[..|order| - 1]);
    } else {
      assert s.db.uploads == s.db.uploads[id := s.db.uploads[id]];
    }
  }

  /** Received chunks hold the file's slices. */
  predicate HoldsSlices(s: State, id: UploadId, file: Bytes)
    requires id in s.db.uploads
  {
    && id in s.disk.staging
    && forall i :: i in s.db.uploads[id].chunksReceived ==>
         i < s.db.uploads[id].chunkCount && i in s.disk.staging[id] && s.disk.staging[id][i] == Slice(file, i)
  }

  /** What any amount of sending leaves behind. */
  ghost predicate SentState(s: State, s': State, ctx: Ctx, id: UploadId, file: Bytes, order: seq<nat>)
    requires id in s.db.uploads
  {
    && id in s'.db.uploads
    && s'.db.uploads == s.db.uploads[id := s.db.uploads[id].(chunksReceived := s'.db.uploads[id].chunksReceived)]
    && s'.db == s.db.(uploads := s'.db.uploads)
    && s'.disk.blobs == s.disk.blobs
    && s'.disk.staging - {id} == s.disk.staging - {id}
    && s'.txn == s.txn && s'.ops == s.ops && s'.nextId == s.nextId
    && HoldsSlices(s', id, file)
    && NoDuplicates(s'.db.uploads[id].chunksReceived)
    && Elements(s'.db.uploads[id].chunksReceived) == Elements(s.db.uploads[id].chunksReceived) + Elements(order)
  }

  lemma {:induction false} Sending(s: State, ctx: Ctx, id: UploadId, file: Bytes, order: seq<nat>)
    requires Owns(s.db, ctx.tenant, id) && HoldsSlices(s, id, file)
    requires NoDuplicates(s.db.uploads[id].chunksReceived)
    requires forall i :: 0 <= i < |order| ==> order[i] < s.db.uploads[id].chunkCount
    ensures SentState(s, SendChunks(s, ctx, id, file, order), ctx, id, file, order)
    decreases |order|
  {
    if order != [] {
      var shorter, index := order[..|order| - 1], order[|order| - 1];
      Sending(s, ctx, id, file, shorter);
      assert Elements(order) == Elements(shorter) + {index};
      var before := SendChunks(s, ctx, id, file, shorter);
      var after := SendChunks(s, ctx, id, file, order);
      SendOne(before, ctx, id, file, index);
      assert after.disk.staging - {id} == before.disk.staging - {id};
    } else {
      assert s.db.uploads == s.db.uploads[id := s.db.uploads[id]];
      assert Elements(order) == {};
    }
  }

  lemma SendOne(s: State, ctx: Ctx, id: UploadId, file: Bytes, index: nat)
    requires Owns(s.db, ctx.tenant, id) && HoldsSlices(s, id, file) && index < s.db.uploads[id].chunkCount
    requires NoDuplicates(s.db.uploads[id].chunksReceived)
    ensures var s' := ReplaceChunk(s, ctx, id, index, Slice(file, index)).0;
            && id in s'.db.uploads && HoldsSlices(s', id, file)
            && NoDuplicates(s'.db.uploads[id].chunksReceived)
            && Elements(s'.db.uploads[id].chunksReceived) == Elements(s.db.uploads[id].chunksReceived) + {index}
  {
    var s' := ReplaceChunk(s, ctx, id, index, Slice(file, index)).0;
    var before, after := s.db.uploads[id].chunksReceived, s'.db.uploads[id].chunksReceived;
    if index !in before {
      assert after == before + [index];
      assert Elements(after) == Elements(before) + {index};
    }
  }

  /** No other content is stored under the file's hash. */
  predicate NoCollision(cfg: Config, disk: Disk, t: Tenant, file: Bytes) {
    Stored(cfg, disk, t, cfg.hash(file)) ==> disk.blobs[BlobAt(cfg, t, cfg.hash(file))] == file
  }

  /** Nothing but the covered set of chunk numbers matters for finalizing. */
  predicate Covers(received: seq<nat>, order: seq<nat>, count: nat) {
    && (forall i :: 0 <= i < count ==> i in received || i in order)
    && (forall i :: 0 <= i < |order| ==> order[i] < count)
  }

  /** What finalizing a complete upload of `file` does to the server. */
  ghost function Finalized(cfg: Config, s: State, ctx: Ctx, upload: Upload, file: Bytes): (State, Result<FileMeta>) {
    var blob := BlobAt(cfg, ctx.tenant, upload.totalHash);
    if blob in s.disk.blobs then Finish(s, ctx, upload, None, s.disk)
    else Finish(s, ctx, upload, Some(|file|), s.disk.(blobs := s.disk.blobs[blob := file]))
  }

  /**
   * Resuming works from any received set: send the missing chunks in any order, repeated at will,
   * and finalizing passes its size and hash checks and stores exactly the file.
   */
  lemma ResumeThenFinalize(cfg: Config, s: State, ctx: Ctx, id: UploadId, file: Bytes, order: seq<nat>)
    requires Owns(s.db, ctx.tenant, id) && s.db.uploads[id].id == id
    requires s.db.uploads[id].totalHash == cfg.hash(file) && s.db.uploads[id].totalSize == |file|
    requires ChunkCount(|file|) <= s.db.uploads[id].chunkCount
    requires HoldsSlices(s, id, file) && NoDuplicates(s.db.uploads[id].chunksReceived)
    requires Covers(s.db.uploads[id].chunksReceived, order, s.db.uploads[id].chunkCount)
    requires NoCollision(cfg, s.disk, ctx.tenant, file)
    ensures FinalizeUpload(cfg, SendChunks(s, ctx, id, file, order), ctx, id)
            == Finalized(cfg, s, ctx, s.db.uploads[id], file)
  {
    var sent := SendChunks(s, ctx, id, file, order);
    var upload := s.db.uploads[id];
    Sending(s, ctx, id, file, order);
    var received := sent.db.uploads[id].chunksReceived;
    CoveredCount(upload.chunksReceived, order, received, upload.chunkCount);
    SplitThenJoin(file, sent.disk.staging[id], upload.chunkCount);
    assert CheckJoined(cfg, upload, Joined(ChunksOf(sent.disk, id), upload.chunkCount)).Ok?;
    assert sent.db.uploads - {id} == s.db.uploads - {id};
  }

  lemma CoveredCount(before: seq<nat>, order: seq<nat>, received: seq<nat>, count: nat)
    requires NoDuplicates(received) && Elements(received) == Elements(before) + Elements(order)
    requires Covers(before, order, count) && forall i :: i in before ==> i < count
    ensures |received| == count && forall i :: 0 <= i < count ==> i in received
  {
    BelowCount(count);
    DistinctCount(received);
    forall i ensures i in Elements(received) <==> i in Below(count) {
      assert i in Elements(before) <==> i in before;
      assert i in Elements(order) <==> i in order;
    }
    forall i | 0 <= i < count ensures i in received {
      assert i in Below(count);
      assert i in Elements(received);
    }
    assert Elements(received) == Below(count);
  }

  /** The request a client opens a chunked upload with. */
  function RequestFor(cfg: Config, path: Path, file: Bytes, count: nat): InitRequest {
    InitRequest(path, |file|, cfg.hash(file), count)
  }

  lemma FreshUpload(cfg: Config, s: State, ctx: Ctx, req: InitRequest)
    requires Inv(cfg, s) && CreateUpload(cfg, s, ctx, req).1.Ok?
    ensures var s' := CreateUpload(cfg, s, ctx, req).0;
            && s.nextId !in s.db.uploads && s.nextId !in s.disk.staging
            && CreateUpload(cfg, s, ctx, req).1 == Ok(s.nextId)
            && s'.db.uploads - {s.nextId} == s.db.uploads
            && s'.disk.staging - {s.nextId} == s.disk.staging
            && s'.db.uploads[s.nextId] == Upload(s.nextId, req.path, req.totalSize, req.totalHash, req.chunkCount, [], ctx.tenant, ctx.user)
            && HoldsSlices(s', s.nextId, [])
  {
    assert forall j :: j in s.db.uploads ==> UploadOk(s.db, s.disk, s.nextId, j);
  }

  lemma FreshThenFinalized(cfg: Config, s: State, ctx: Ctx, path: Path, file: Bytes, count: nat)
    requires Inv(cfg, s)
    requires CreateUpload(cfg, s, ctx, RequestFor(cfg, path, file, count)).1.Ok?
    ensures var s' := CreateUpload(cfg, s, ctx, RequestFor(cfg, path, file, count)).0;
            var direct := CreateFile(cfg, s, ctx, path, file);
            s.nextId in s'.db.uploads
            && Finalized(cfg, s', ctx, s'.db.uploads[s.nextId], file) == (direct.0.(nextId := s.nextId + 1), direct.1)
  {
    var req := RequestFor(cfg, path, file, count);
    FreshUpload(cfg, s, ctx, req);
    var s' := CreateUpload(cfg, s, ctx, req).0;
    var final := Finalized(cfg, s', ctx, s'.db.uploads[s.nextId], file).0;
    var direct := CreateFile(cfg, s, ctx, path, file).0;
    assert final.db.usages == direct.db.usages;
    assert final.disk == direct.disk;
  }

  /**
   * A chunked upload is a create: it is accepted exactly when the create would be, returns the
   * same row, and leaves the same server behind, but for the upload number it used up.
   */
  lemma ChunkedEqualsDirect(cfg: Config, s: State, ctx: Ctx, path: Path, file: Bytes, count: nat, order: seq<nat>)
    requires Inv(cfg, s)
    requires ChunkCount(|file|) <= count && Covers([], order, count)
    requires NoCollision(cfg, s.disk, ctx.tenant, file)
    ensures var session := CreateUpload(cfg, s, ctx, RequestFor(cfg, path, file, count));
            var direct := CreateFile(cfg, s, ctx, path, file);
            && (session.1.Ok? <==> direct.1.Ok?)
            && (session.1.Ok? ==>
                  FinalizeUpload(cfg, SendChunks(session.0, ctx, session.1.value, file, order), ctx, session.1.value)
                  == (direct.0.(nextId := s.nextId + 1), direct.1))
  {
    var session := CreateUpload(cfg, s, ctx, RequestFor(cfg, path, file, count));
    if session.1.Ok? {
      FreshUpload(cfg, s, ctx, RequestFor(cfg, path, file, count));
      FreshThenFinalized(cfg, s, ctx, path, file, count);
      ResumeThenFinalize(cfg, session.0, ctx, s.nextId, file, order);
    }
  }
}
