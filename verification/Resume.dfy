/** Resuming a pending upload: what finalizing it leaves in the tables, and when that is the file. */
module Resume {
  import opened Prelude
  import opened Chunks
  import opened Tables
  import opened Machine
  import opened Invariants
  import opened Service
  import opened ClientModel
  import opened PushModel

  /** The chunk numbers below `n` that the server does not have yet. */
  function Wanted(received: seq<nat>, n: nat): set<nat> { set i | 0 <= i < n && i !in received }

  lemma ResumedTables(cfg: Config, s: State, ctx: Ctx, id: UploadId, file: Bytes, sent: seq<nat>)
    requires Owns(s.db, ctx.tenant, id) && s.db.uploads[id].id == id
    requires FinalizeUpload(cfg, SendChunks(s, ctx, id, file, sent), ctx, id).1.Ok?
    ensures var (s', r) := FinalizeUpload(cfg, SendChunks(s, ctx, id, file, sent), ctx, id);
            var upload := s.db.uploads[id];
            && s'.db.files == WithRow(s.db.files, ctx, upload.path, upload.totalSize, upload.totalHash)
            && s'.db.uploads == s.db.uploads - {id}
            && r.value == PutRow(s.db.files, ctx, upload.path, upload.totalSize, upload.totalHash)
  {
    SendingFrame(s, ctx, id, file, sent);
    var complete := SendChunks(s, ctx, id, file, sent);
    FinalizedTables(cfg, complete, ctx, id);
    assert complete.db.uploads - {id} == s.db.uploads - {id};
  }

  /** A pending upload that was opened for this file and has taken none but its chunks. */
  predicate Resumable(cfg: Config, s: State, ctx: Ctx, id: UploadId, file: Bytes) {
    && Owns(s.db, ctx.tenant, id) && HoldsSlices(s, id, file) && NoCollision(cfg, s.disk, ctx.tenant, file)
    && s.db.uploads[id].totalHash == cfg.hash(file) && s.db.uploads[id].totalSize == |file|
    && ChunkCount(|file|) <= s.db.uploads[id].chunkCount
  }

  /** Sending what the server lacks is all it takes to finish such an upload. */
  lemma ResumingSucceeds(cfg: Config, s: State, ctx: Ctx, id: UploadId, file: Bytes, sent: seq<nat>)
    requires Inv(cfg, s) && Resumable(cfg, s, ctx, id, file)
    requires Elements(sent) == Wanted(s.db.uploads[id].chunksReceived, s.db.uploads[id].chunkCount)
    ensures FinalizeUpload(cfg, SendChunks(s, ctx, id, file, sent), ctx, id) == Finalized(cfg, s, ctx, s.db.uploads[id], file)
  {
    var upload := s.db.uploads[id];
    assert UploadOk(s.db, s.disk, s.nextId, id);
    forall i | 0 <= i < upload.chunkCount ensures i in upload.chunksReceived || i in sent {
      if i !in upload.chunksReceived { assert i in Elements(sent); }
    }
    forall k | 0 <= k < |sent| ensures sent[k] < upload.chunkCount { assert sent[k] in Elements(sent); }
    ResumeThenFinalize(cfg, s, ctx, id, file, sent);
  }

  /** The upload the record names is still there. */
  predicate Pending(db: Db, ctx: Ctx, c: Client, path: Path) {
    path in c.records && c.records[path].uploadId.Some? && Owns(db, ctx.tenant, c.records[path].uploadId.value)
  }

  /** If an upload that the record names is still there, it can be resumed with the file as it is. */
  predicate GoodRecord(cfg: Config, s: State, ctx: Ctx, c: Client, path: Path)
    requires path in c.fs
  {
    Pending(s.db, ctx, c, path) ==>
      var id := c.records[path].uploadId.value;
      Resumable(cfg, s, ctx, id, c.fs[path]) && s.db.uploads[id].path == path
  }

  /** And it is one that the server has issued. */
  predicate CanResume(cfg: Config, s: State, ctx: Ctx, c: Client, path: Path)
    requires path in c.fs
  {
    GoodRecord(cfg, s, ctx, c, path)
    && (path in c.records && c.records[path].uploadId.Some? ==> c.records[path].uploadId.value < s.nextId)
  }

  /** Whatever chunks of the file arrive leave it so. */
  lemma {:induction false} SendingKeepsResumable(cfg: Config, s: State, ctx: Ctx, id: UploadId, file: Bytes, arrived: seq<nat>)
    requires Resumable(cfg, s, ctx, id, file)
    ensures var s' := SendChunks(s, ctx, id, file, arrived);
            Resumable(cfg, s', ctx, id, file) && s'.nextId == s.nextId && s'.db.uploads[id].path == s.db.uploads[id].path
    decreases |arrived|
  {
    if arrived != [] {
      SendingKeepsResumable(cfg, s, ctx, id, file, arrived[..|arrived| - 1]);
      ChunkKeepsResumable(cfg, SendChunks(s, ctx, id, file, arrived[..|arrived| - 1]), ctx, id, file, arrived[|arrived| - 1]);
    }
  }

  lemma ChunkKeepsResumable(cfg: Config, s: State, ctx: Ctx, id: UploadId, file: Bytes, index: nat)
    requires Resumable(cfg, s, ctx, id, file)
    ensures var s' := ReplaceChunk(s, ctx, id, index, Slice(file, index)).0;
            Resumable(cfg, s', ctx, id, file) && s'.nextId == s.nextId && s'.db.uploads[id].path == s.db.uploads[id].path
  {
  }

  /** So does opening another upload. */
  lemma OpeningKeepsResumable(cfg: Config, s: State, ctx: Ctx, id: UploadId, file: Bytes, req: InitRequest)
    requires Inv(cfg, s) && Resumable(cfg, s, ctx, id, file)
    ensures var s' := CreateUpload(cfg, s, ctx, req).0;
            Resumable(cfg, s', ctx, id, file) && s'.db.uploads[id].path == s.db.uploads[id].path
  {
    assert UploadOk(s.db, s.disk, s.nextId, id);
  }

  /** An upload just opened for the file is there to be resumed. */
  lemma OpenedIsResumable(cfg: Config, s: State, ctx: Ctx, path: Path, file: Bytes)
    requires Inv(cfg, s) && NoCollision(cfg, s.disk, ctx.tenant, file)
    requires CreateUpload(cfg, s, ctx, RequestFor(cfg, path, file, ChunkCount(|file|))).1.Ok?
    ensures var (s', r) := CreateUpload(cfg, s, ctx, RequestFor(cfg, path, file, ChunkCount(|file|)));
            Resumable(cfg, s', ctx, r.value, file) && s'.db.uploads[r.value].path == path
  {
    FreshUpload(cfg, s, ctx, RequestFor(cfg, path, file, ChunkCount(|file|)));
  }

  /**
   * What an interrupted push may have done to the server: some of the chunks have arrived, and then
   * perhaps the upload was finished although the client never heard of it.
   */
  ghost predicate Interrupted(cfg: Config, s: State, s': State, ctx: Ctx, id: UploadId, file: Bytes) {
    exists arrived :: CameAsFar(cfg, s, s', ctx, id, file, arrived)
  }

  ghost predicate CameAsFar(cfg: Config, s: State, s': State, ctx: Ctx, id: UploadId, file: Bytes, arrived: seq<nat>) {
    var sent := SendChunks(s, ctx, id, file, arrived);
    s' == sent || s' == FinalizeUpload(cfg, sent, ctx, id).0
  }

  lemma InterruptedKeepsResumable(cfg: Config, s: State, s': State, ctx: Ctx, id: UploadId, file: Bytes)
    requires Inv(cfg, s) && Resumable(cfg, s, ctx, id, file) && Interrupted(cfg, s, s', ctx, id, file)
    ensures s'.nextId == s.nextId
    ensures Owns(s'.db, ctx.tenant, id) ==> Resumable(cfg, s', ctx, id, file) && s'.db.uploads[id].path == s.db.uploads[id].path
  {
    assert UploadOk(s.db, s.disk, s.nextId, id);
    var arrived :| CameAsFar(cfg, s, s', ctx, id, file, arrived);
    SendingKeepsResumable(cfg, s, ctx, id, file, arrived);
    SendingFrame(s, ctx, id, file, arrived);
    var sent := SendChunks(s, ctx, id, file, arrived);
    var (finished, r) := FinalizeUpload(cfg, sent, ctx, id);
    if s' != sent && r.Ok? { FinalizedTables(cfg, sent, ctx, id); }
  }

  /** The upload a push settled on: the recorded one, untouched, or a new one for the file. */
  ghost predicate SettledOn(cfg: Config, s: State, mid: State, ctx: Ctx, c: Client, path: Path, id: UploadId)
    requires path in c.fs
  {
    || (Pending(s.db, ctx, c, path) && id == c.records[path].uploadId.value && mid == s)
    || (mid, Ok(id)) == CreateUpload(cfg, s, ctx, RequestFor(cfg, path, c.fs[path], ChunkCount(|c.fs[path]|)))
  }

  ghost predicate StillCanResume(cfg: Config, s: State, s': State, ctx: Ctx, c: Client, c': Client, path: Path)
    requires path in c.fs && path in c'.fs
  {
    NoCollision(cfg, s.disk, ctx.tenant, c.fs[path]) && CanResume(cfg, s, ctx, c, path) ==> CanResume(cfg, s', ctx, c', path)
  }

  /** However far a push came with that upload, what it leaves can be resumed. */
  lemma InterruptedCanResume(cfg: Config, s: State, mid: State, s': State, ctx: Ctx, c: Client, c': Client, path: Path, id: UploadId)
    requires Inv(cfg, s) && Inv(cfg, mid) && path in c.fs && c'.fs == c.fs
    requires SettledOn(cfg, s, mid, ctx, c, path, id) && Interrupted(cfg, mid, s', ctx, id, c.fs[path])
    requires path in c'.records && (c'.records[path].uploadId == Some(id) || c'.records[path].uploadId == None)
    ensures StillCanResume(cfg, s, s', ctx, c, c', path)
  {
    if !(NoCollision(cfg, s.disk, ctx.tenant, c.fs[path]) && CanResume(cfg, s, ctx, c, path)) { return; }
    if !(Pending(s.db, ctx, c, path) && id == c.records[path].uploadId.value && mid == s) {
      OpenedIsResumable(cfg, s, ctx, path, c.fs[path]);
    }
    assert UploadOk(mid.db, mid.disk, mid.nextId, id);
    InterruptedKeepsResumable(cfg, mid, s', ctx, id, c.fs[path]);
  }

  /** Nor does it matter if a new upload was opened and the client did not hear of it. */
  lemma UnheardOpening(cfg: Config, s: State, s': State, ctx: Ctx, c: Client, path: Path, req: InitRequest)
    requires Inv(cfg, s) && path in c.fs
    requires s' == s || s' == CreateUpload(cfg, s, ctx, req).0
    ensures StillCanResume(cfg, s, s', ctx, c, c, path)
  {
    if Pending(s.db, ctx, c, path) && CanResume(cfg, s, ctx, c, path) {
      OpeningKeepsResumable(cfg, s, ctx, c.records[path].uploadId.value, c.fs[path], req);
    }
  }

  /** Client and tables after a resumed upload of `path` went through. */
  function Resumed(cfg: Config, s: State, ctx: Ctx, c: Client, path: Path, id: UploadId, sent: seq<nat>): Pair
    requires path in c.fs
    requires FinalizeUpload(cfg, SendChunks(s, ctx, id, c.fs[path], sent), ctx, id).1.Ok?
  {
    var (s', r) := FinalizeUpload(cfg, SendChunks(s, ctx, id, c.fs[path], sent), ctx, id);
    Pair(c.(records := c.records[path := SyncRecord(path, cfg.hash(c.fs[path]), r.value.version, None)]), s'.db.files)
  }

  /**
   * The server then has the local content exactly when the upload was opened for it, which the
   * client does not look at; either way the next push skips the file.
   */
  lemma ResumedIsTrueIff(cfg: Config, s: State, ctx: Ctx, c: Client, path: Path, id: UploadId, sent: seq<nat>)
    requires path in c.fs && Owns(s.db, ctx.tenant, id) && s.db.uploads[id].id == id && s.db.uploads[id].path == path
    requires FinalizeUpload(cfg, SendChunks(s, ctx, id, c.fs[path], sent), ctx, id).1.Ok?
    ensures var w := Resumed(cfg, s, ctx, c, path, id, sent);
            && (LiveWith(w.files, ctx.tenant, path, cfg.hash(c.fs[path]))
                <==> s.db.uploads[id].totalHash == cfg.hash(c.fs[path]))
            && PushFile(cfg.hash, ctx, w, path) == w
  {
    ResumedTables(cfg, s, ctx, id, c.fs[path], sent);
  }

  /**
   * The other case does happen: with every chunk received before the file was edited, nothing is
   * sent, the upload goes through, and an edit with another hash stays on the client unnoticed.
   */
  lemma EditAfterLastChunkIsLost(cfg: Config, s: State, ctx: Ctx, c: Client, path: Path, id: UploadId, before: Bytes)
    requires path in c.fs && Owns(s.db, ctx.tenant, id) && s.db.uploads[id].id == id && s.db.uploads[id].path == path
    requires s.db.uploads[id].totalHash == cfg.hash(before) && s.db.uploads[id].totalSize == |before|
    requires ChunkCount(|before|) <= s.db.uploads[id].chunkCount
    requires HoldsSlices(s, id, before) && NoDuplicates(s.db.uploads[id].chunksReceived)
    requires Covers(s.db.uploads[id].chunksReceived, [], s.db.uploads[id].chunkCount)
    requires NoCollision(cfg, s.disk, ctx.tenant, before) && cfg.hash(c.fs[path]) != cfg.hash(before)
    ensures Wanted(s.db.uploads[id].chunksReceived, s.db.uploads[id].chunkCount) == {}
    ensures FinalizeUpload(cfg, SendChunks(s, ctx, id, c.fs[path], []), ctx, id).1.Ok?
    ensures var w := Resumed(cfg, s, ctx, c, path, id, []);
            LiveWith(w.files, ctx.tenant, path, cfg.hash(before)) && !NeedsUpload(cfg.hash, w.client, path)
  {
    ResumeThenFinalize(cfg, s, ctx, id, before, []);
    ResumedTables(cfg, s, ctx, id, c.fs[path], []);
  }
}
