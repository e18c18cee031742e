/** Calls over the network: request validation, lost requests and lost replies; what is not lost is exact. */
module Api {
  import opened Prelude
  import opened Tables
  import opened Machine
  import opened Service
  import opened ServerClass

  const HASH_SIZE: nat := 64
  const MAX_CHUNK_COUNT: nat := 10_000

  const HEX_DIGITS: string := "0123456789abcdef"

  predicate LowerHex(c: char): (r: bool)
    ensures r <==> c in HEX_DIGITS
  {
    '0' <= c <= '9' || 'a' <= c <= 'f'
  }

  /** `validate_upload_request_body` */
  function ValidateRequest(cfg: Config, req: InitRequest): (r: Result<()>)
    ensures r.Ok? <==>
              && |req.totalHash| == HASH_SIZE && (forall c :: c in req.totalHash ==> c in HEX_DIGITS)
              && req.totalSize <= cfg.maxFileSize && 1 <= req.chunkCount <= MAX_CHUNK_COUNT
  {
    if |req.totalHash| != HASH_SIZE then Err(Validation)
    else if exists i :: 0 <= i < |req.totalHash| && !LowerHex(req.totalHash[i]) then
      assert exists c :: c in req.totalHash && !LowerHex(c);
      Err(Validation)
    else if req.totalSize > cfg.maxFileSize then Err(Validation)
    else if req.chunkCount > MAX_CHUNK_COUNT then Err(Validation)
    else if req.chunkCount == 0 then Err(Validation)
    else Ok(())
  }

  /** What validation leaves of the chunk counts. */
  predicate WithinLimits(uploads: map<UploadId, Upload>) {
    forall id :: id in uploads ==> uploads[id].chunkCount <= MAX_CHUNK_COUNT
  }

  /** `POST /uploads`: validation, then the service. */
  ghost function AskUpload(cfg: Config, s: State, ctx: Ctx, req: InitRequest): (State, Result<UploadId>) {
    if ValidateRequest(cfg, req).Err? then (s, Err(Validation)) else Service.CreateUpload(cfg, s, ctx, req)
  }

  /** The client's view of the server, for one tenant. */
  class SyncApi {
    const server: Server
    const ctx: Ctx
      // some call so far did not come back with success
    var failed: bool
      // creates, uploads opened, and deletes so far
    var changes: nat
      // some message so far got lost, or was cut short
    ghost var lost: bool
      // the chunk calls made so far, whatever became of them
    ghost var chunkCalls: seq<(UploadId, nat)>

    ghost predicate Valid() reads this, server {
      server.Valid() && ctx.tenant in server.tenants && WithinLimits(server.uploads)
    }

    /** Nothing went wrong, or nothing but what the server itself decided. */
    ghost predicate Heard() reads this { !failed || !lost }

    constructor (server: Server, ctx: Ctx)
      requires server.Valid() && ctx.tenant in server.tenants && WithinLimits(server.uploads)
      ensures Valid() && this.server == server && this.ctx == ctx && !failed && !lost && changes == 0 && chunkCalls == []
    {
      this.server, this.ctx, failed, lost, changes, chunkCalls := server, ctx, false, false, 0, [];
    }

    /** The network loses requests and replies as it likes. */
    method Loses() returns (loses: bool)
      modifies this`lost
      ensures lost == (old(lost) || loses)
    {
      if * { loses := true; } else { loses := false; }
      lost := lost || loses;
    }

    method CreateFile(path: Path, content: Bytes) returns (r: Result<FileMeta>)
      requires Valid()
      modifies this, server
      ensures Valid() && changes == old(changes) + 1 && failed == (old(failed) || r.Err?) && (old(lost) ==> lost) && chunkCalls == old(chunkCalls)
      ensures server.Model() == old(server.Model()) || server.Model() == Service.CreateFile(server.cfg, old(server.Model()), ctx, path, content).0
      ensures r.Ok? ==> (server.Model(), r) == Service.CreateFile(server.cfg, old(server.Model()), ctx, path, content)
      ensures !lost ==> (server.Model(), r) == Service.CreateFile(server.cfg, old(server.Model()), ctx, path, content)
    {
      changes := changes + 1;
      var loses := Loses();
      if loses { failed := true; return Err(Network); }
      r := server.CreateFile(ctx, path, content);
      loses := Loses();
      if loses { r := Err(Network); }
      failed := failed || r.Err?;
    }

    method InitUpload(req: InitRequest) returns (r: Result<UploadId>)
      requires Valid()
      modifies this, server
      ensures Valid() && changes == old(changes) + 1 && failed == (old(failed) || r.Err?) && (old(lost) ==> lost) && chunkCalls == old(chunkCalls)
      ensures server.Model() == old(server.Model()) || server.Model() == Service.CreateUpload(server.cfg, old(server.Model()), ctx, req).0
      ensures r.Ok? ==> ValidateRequest(server.cfg, req).Ok?
                        && (server.Model(), r) == Service.CreateUpload(server.cfg, old(server.Model()), ctx, req)
      ensures !lost ==> (server.Model(), r) == AskUpload(server.cfg, old(server.Model()), ctx, req)
    {
      changes := changes + 1;
      var loses := Loses();
      var valid := ValidateRequest(server.cfg, req);
      if loses || valid.Err? {
        failed := true;
        return Err(if loses then Network else Validation);
      }
      r := server.CreateUpload(ctx, req);
      loses := Loses();
      if loses { r := Err(Network); }
      failed := failed || r.Err?;
    }

    /** The chunk number goes over the wire as 32 bits. */
    method SendChunk(id: UploadId, index: nat, content: Bytes) returns (r: Result<()>)
      requires Valid()
      modifies this, server
      ensures Valid() && changes == old(changes) && failed == (old(failed) || r.Err?) && (old(lost) ==> lost)
      ensures chunkCalls == old(chunkCalls) + [(id, index % 0x1_0000_0000)]
      ensures var sent := Service.ReplaceChunk(old(server.Model()), ctx, id, index % 0x1_0000_0000, content);
              (server.Model() == old(server.Model()) || server.Model() == sent.0)
              && (r.Ok? || !lost ==> (server.Model(), r) == sent)
    {
      chunkCalls := chunkCalls + [(id, index % 0x1_0000_0000)];
      var loses := Loses();
      if loses { failed := true; return Err(Network); }
      r := server.ReplaceChunk(ctx, id, index % 0x1_0000_0000, content);
      loses := Loses();
      if loses { r := Err(Network); }
      failed := failed || r.Err?;
    }

    /** A failed lookup does not fail the push: the client opens a new upload instead. */
    method GetUpload(id: UploadId) returns (r: Result<Upload>)
      requires Valid()
      modifies this`lost
      ensures Valid() && (old(lost) ==> lost)
      ensures r.Ok? ==> Owns(server.Db(), ctx.tenant, id) && r.value == server.uploads[id]
      ensures !lost ==> (r.Ok? <==> Owns(server.Db(), ctx.tenant, id))
    {
      var loses := Loses();
      if loses { return Err(Network); }
      r := server.GetUpload(ctx, id);
    }

    method FinalizeUpload(id: UploadId) returns (r: Result<FileMeta>)
      requires Valid()
      modifies this, server
      ensures Valid() && changes == old(changes) && failed == (old(failed) || r.Err?) && (old(lost) ==> lost) && chunkCalls == old(chunkCalls)
      ensures server.Model() == old(server.Model()) || server.Model() == Service.FinalizeUpload(server.cfg, old(server.Model()), ctx, id).0
      ensures r.Ok? ==> (server.Model(), r) == Service.FinalizeUpload(server.cfg, old(server.Model()), ctx, id)
      ensures !lost ==> (server.Model(), r) == Service.FinalizeUpload(server.cfg, old(server.Model()), ctx, id)
    {
      var loses := Loses();
      if loses { failed := true; return Err(Network); }
      r := server.FinalizeUpload(ctx, id);
      loses := Loses();
      if loses { r := Err(Network); }
      failed := failed || r.Err?;
    }

    method DeleteFile(path: Path) returns (r: Result<()>)
      requires Valid()
      modifies this, server
      ensures Valid() && changes == old(changes) + 1 && failed == (old(failed) || r.Err?) && (old(lost) ==> lost) && chunkCalls == old(chunkCalls)
      ensures server.Model() == old(server.Model()) || server.Model() == Service.DeleteFile(old(server.Model()), ctx, path)
      ensures r.Ok? ==> server.Model() == Service.DeleteFile(old(server.Model()), ctx, path)
      ensures !lost ==> r.Ok?
    {
      changes := changes + 1;
      var loses := Loses();
      if loses { failed := true; return Err(Network); }
      server.DeleteFile(ctx, path);
      loses := Loses();
      if loses { failed := true; return Err(Network); }
      return Ok(());
    }

    method ListFiles() returns (r: Result<seq<FileMeta>>, ghost keys: seq<string>)
      requires Valid()
      modifies this
      ensures Valid() && changes == old(changes) && failed == (old(failed) || r.Err?) && (old(lost) ==> lost) && chunkCalls == old(chunkCalls)
      ensures r.Ok? ==> Enumerates(Listed(server.files, ctx.tenant), keys, r.value)
      ensures !lost ==> r.Ok?
    {
      keys := [];
      var loses := Loses();
      if loses { failed := true; return Err(Network), []; }
      var list;
      list, keys := server.ListFiles(ctx);
      r := Ok(list);
    }

    /** A download from byte `start` on; `whole` says whether the stream reached its end. */
    method GetFile(path: Path, start: nat) returns (r: Result<(bool, Bytes)>, whole: bool)
      requires Valid()
      modifies this
      ensures Valid() && changes == old(changes) && failed == (old(failed) || r.Err? || !whole) && (old(lost) ==> lost) && chunkCalls == old(chunkCalls)
      ensures (whole && r.Ok?) || !lost ==> whole && r == ServeFile(server.cfg, server.Model(), ctx, path, start)
    {
      whole := true;
      var loses := Loses();
      if loses { failed := true; return Err(Network), true; }
      r := server.GetFile(ctx, path, start);
      if r.Ok? {
        var cut := Loses();
        if cut {
          var n :| 0 <= n <= |r.value.1|;
          r := Ok((r.value.0, r.value.1[..n]));
          whole := false;
        }
      }
      failed := failed || r.Err? || !whole;
    }
  }
}
