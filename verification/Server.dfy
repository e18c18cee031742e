/** The service as the source has it: methods that update tables and directories in place. */
module ServerClass {
  import opened Prelude
  import opened Sums
  import opened Chunks
  import opened Tables
  import opened Machine
  import opened Invariants
  import opened Integrity
  import opened Service

  /** `rows` are the values of `m` in the order of `keys`, each key once. */
  ghost predicate Enumerates<K, V>(m: map<K, V>, keys: seq<K>, rows: seq<V>) {
    && |keys| == |rows| && NoDuplicates(keys) && Elements(keys) == m.Keys
    && forall i :: 0 <= i < |rows| ==> keys[i] in m && rows[i] == m[keys[i]]
  }

  /** As many rows as the map has, all of them its values, none of those missing. */
  predicate HoldsRows<K, V(==)>(m: map<K, V>, rows: seq<V>) {
    |rows| == |m| && (forall key :: key in m ==> m[key] in rows) && forall row :: row in rows ==> row in m.Values
  }

  lemma EnumeratesHoldsRows<K, V>(m: map<K, V>, keys: seq<K>, rows: seq<V>)
    requires Enumerates(m, keys, rows)
    ensures HoldsRows(m, rows)
  {
    DistinctCount(keys);
    assert |m.Keys| == |m|;
    forall key | key in m ensures m[key] in rows {
      assert key in Elements(keys);
      var i :| 0 <= i < |keys| && keys[i] == key;
      assert rows[i] == m[key];
    }
  }

  function SumSizes(list: seq<Upload>): nat {
    if list == [] then 0 else SumSizes(list[..|list| - 1]) + list[|list| - 1].totalSize
  }

  lemma {:induction false} SumSizesPrefix(list: seq<Upload>, i: nat)
    requires i <= |list|
    ensures SumSizes(list[..i]) <= SumSizes(list)
  {
    if i < |list| {
      SumSizesPrefix(list[..|list| - 1], i);
      assert list[..|list| - 1][..i] == list[..i];
    } else {
      assert list[..i] == list;
    }
  }

  ghost function OwnUploads(uploads: map<UploadId, Upload>, t: Tenant): map<UploadId, Upload> {
    map id | id in uploads && uploads[id].tenant == t :: uploads[id]
  }

  lemma ListedSum(db: Tables.Db, t: Tenant, ids: seq<UploadId>, list: seq<Upload>)
    requires Enumerates(OwnUploads(db.uploads, t), ids, list)
    ensures SumSizes(list) == Reserved(db, t)
  {
    AnyOrderSum(OwnUploads(db.uploads, t), ids, list);
    assert SizesOf(OwnUploads(db.uploads, t)) == Reservations(db, t);
  }

  /** The checked fold: it fails exactly when the whole sum does not fit. */
  method CheckedSum(list: seq<Upload>) returns (r: Result<nat>)
    ensures r == if SumSizes(list) < U64_LIMIT then Ok(SumSizes(list)) else Err(QuotaExceeded)
  {
    var sum := 0;
    for i := 0 to |list|
      invariant sum == SumSizes(list[..i]) < U64_LIMIT
    {
      assert list[..i + 1][..i] == list[..i];
      SumSizesPrefix(list, i + 1);
      if sum + list[i].totalSize >= U64_LIMIT { return Err(QuotaExceeded); }
      sum := sum + list[i].totalSize;
    }
    assert list[..|list|] == list;
    return Ok(sum);
  }

  ghost function SizesOf(m: map<UploadId, Upload>): map<UploadId, nat> { map id | id in m :: m[id].totalSize }

  /** Adding up in any order gives the sum over the table. */
  lemma {:induction false} AnyOrderSum(m: map<UploadId, Upload>, ids: seq<UploadId>, list: seq<Upload>)
    requires Enumerates(m, ids, list)
    ensures SumSizes(list) == Sum(SizesOf(m))
    decreases |ids|
  {
    if list == [] {
      assert m.Keys == {};
      assert SizesOf(m) == map[];
    } else {
      var k := |ids| - 1;
      assert Elements(ids) == Elements(ids[..k]) + {ids[k]};
      assert ids[k] !in Elements(ids[..k]);
      assert SizesOf(m) - {ids[k]} == SizesOf(m - {ids[k]});
      AnyOrderSum(m - {ids[k]}, ids[..k], list[..k]);
      SumAt(SizesOf(m), ids[k]);
    }
  }

  lemma Enumerate<K, V>(m: map<K, V>, keys: seq<K>, rows: seq<V>, key: K, v: V)
    requires Enumerates(m, keys, rows) && key !in m
    ensures Enumerates(m[key := v], keys + [key], rows + [v])
  {
    assert Elements(keys + [key]) == Elements(keys) + {key};
    assert forall k :: k in keys <==> k in Elements(keys);
  }

  /** What the class keeps between calls. */
  ghost predicate Sound(cfg: Config, s: State) { Inv(cfg, s) && StoredInv(cfg, s) }

  lemma CreateFileKeeps(cfg: Config, s: State, ctx: Ctx, path: Path, content: Bytes)
    requires cfg.Valid() && Sound(cfg, s) && Quiet(s) && ctx.tenant in s.db.tenants
    ensures Sound(cfg, Service.CreateFile(cfg, s, ctx, path, content).0)
  {
    CreateFileRuns(cfg, s, ctx, path, content);
    RunKeepsStored(cfg, s, [CreateStep(ctx, path, content), CommitStep(0)]);
  }

  lemma FinalizeUploadKeeps(cfg: Config, s: State, ctx: Ctx, id: UploadId)
    requires cfg.Valid() && Sound(cfg, s) && Quiet(s) && ctx.tenant in s.db.tenants && Owns(s.db, ctx.tenant, id)
    ensures Sound(cfg, Service.FinalizeUpload(cfg, s, ctx, id).0)
  {
    FinalizeRuns(cfg, s, ctx, id);
    RunKeepsStored(cfg, s, FinalizeSteps(ctx, id, s.db.uploads[id].chunkCount));
  }

  class Server {
    const cfg: Config
    var files: map<string, FileMeta>
    var uploads: map<UploadId, Upload>
    var usages: map<Tenant, nat>
    var tenants: set<Tenant>
    var blobs: map<BlobPath, Bytes>
    var staging: map<UploadId, map<nat, Bytes>>
    var nextId: UploadId

    ghost function Db(): Tables.Db reads this { Tables.Db(files, uploads, usages, tenants) }

    ghost function Model(): State reads this {
      State(Db(), Disk(blobs, staging), Idle, map[], nextId)
    }

    ghost predicate Valid() reads this { cfg.Valid() && Sound(cfg, Model()) }

    constructor (cfg: Config)
      requires cfg.Valid()
      ensures this.cfg == cfg && Valid() && Model() == Init()
    {
      this.cfg := cfg;
      files, uploads, usages, tenants := map[], map[], map[], {};
      blobs, staging, nextId := map[], map[], 0;
      new;
      InitHolds(cfg);
    }

    /** `admit_tenant` */
    method AdmitTenant(t: Tenant) returns (admitted: bool)
      requires Valid()
      modifies this
      ensures Valid()
      ensures Model() == old(Model()).(db := Admit(cfg, old(Db()), t).0)
      ensures admitted == Admit(cfg, old(Db()), t).1
    {
      AdmitKeeps(cfg, Model(), t);
      if t in tenants { return true; }
      if |tenants| >= cfg.maxTenants { return false; }
      tenants := tenants + {t};
      return true;
    }

    /** `list_tx`: the tenant's pending uploads, in whatever order the table yields them. */
    method ListUploads(t: Tenant) returns (list: seq<Upload>, ghost ids: seq<UploadId>)
      ensures Enumerates(OwnUploads(uploads, t), ids, list)
      ensures HoldsRows(OwnUploads(uploads, t), list)
    {
      list, ids := [], [];
      var rest := uploads.Keys;
      ghost var done: map<UploadId, Upload> := map[];
      while rest != {}
        invariant rest <= uploads.Keys
        invariant done == map id | id in uploads && id !in rest && uploads[id].tenant == t :: uploads[id]
        invariant Enumerates(done, ids, list)
        decreases |rest|
      {
        var id :| id in rest;
        rest := rest - {id};
        if uploads[id].tenant == t {
          Enumerate(done, ids, list, id, uploads[id]);
          list, ids, done := list + [uploads[id]], ids + [id], done[id := uploads[id]];
        }
      }
      assert done == OwnUploads(uploads, t);
      EnumeratesHoldsRows(done, ids, list);
    }

    /** `upload_usage` in `check_quota`. */
    method SumReservations(t: Tenant) returns (r: Result<nat>)
      ensures r == if Reserved(Db(), t) < U64_LIMIT then Ok(Reserved(Db(), t)) else Err(QuotaExceeded)
    {
      var list, ids := ListUploads(t);
      ListedSum(Db(), t, ids, list);
      r := CheckedSum(list);
    }

    /**
     * `check_quota`: additions checked against 64 bits decide the same question as the unbounded
     * sum, whatever the number and order of the reservations.
     */
    method CheckQuota(t: Tenant, hash: Hash, size: nat, usage: nat) returns (r: Result<bool>)
      requires cfg.Valid() && usage == UsageOf(Db(), t)
      ensures r.Ok? <==> QuotaAllows(cfg, Db(), Disk(blobs, staging), t, hash, size)
      ensures r.Ok? ==> r.value == (BlobAt(cfg, t, hash) in blobs)
      ensures r.Err? ==> r.error == QuotaExceeded
    {
      if BlobAt(cfg, t, hash) in blobs { return Ok(true); }
      var reserved := SumReservations(t);
      if reserved.Err? { return Err(reserved.error); }
      var sum := reserved.value;
      if usage + size >= U64_LIMIT { return Err(QuotaExceeded); }
      if usage + size + sum >= U64_LIMIT { return Err(QuotaExceeded); }
      if cfg.quota < usage + size + sum { return Err(QuotaExceeded); }
      return Ok(false);
    }

    /** `create_file` */
    method CreateFile(ctx: Ctx, path: Path, content: Bytes) returns (r: Result<FileMeta>)
      requires Valid() && ctx.tenant in tenants
      modifies this
      ensures Valid()
      ensures (Model(), r) == Service.CreateFile(cfg, old(Model()), ctx, path, content)
      ensures r.Err? <==> !QuotaAllows(cfg, old(Db()), Disk(old(blobs), old(staging)), ctx.tenant, cfg.hash(content), |content|)
      ensures r.Err? ==> r.error == QuotaExceeded && Model() == old(Model())
      ensures r.Ok? ==>
                && r.value.path == path && r.value.contentHash == cfg.hash(content) && r.value.size == |content|
                && !r.value.isDeleted && r.value.tenant == ctx.tenant && r.value.user == ctx.user
                && ServeFile(cfg, Model(), ctx, path, 0).Ok?
    {
      CreateFileKeeps(cfg, Model(), ctx, path, content);
      var t := ctx.tenant;
      var usage := if t in usages then usages[t] else 0;
      var hash := cfg.hash(content);
      var exist := CheckQuota(t, hash, |content|, usage);
      if exist.Err? { return Err(exist.error); }
      // From here on the changes are those of the transaction; none is visible if it does not commit.
      usages := usages[t := usage];
      if !exist.value {
        PutTwice(old(usages), t, usage, Add64(usage, |content|));
        usages := usages[t := Add64(usage, |content|)];
        blobs := blobs[BlobAt(cfg, t, hash) := content];
      }
      var meta := PutFile(ctx, path, |content|, hash);
      assert Model() == Service.CreateFile(cfg, old(Model()), ctx, path, content).0;
      return Ok(meta);
    }

    /** `put_table` */
    method PutFile(ctx: Ctx, path: Path, size: nat, hash: Hash) returns (meta: FileMeta)
      modifies this`files
      ensures files == WithRow(old(files), ctx, path, size, hash) && meta == PutRow(old(files), ctx, path, size, hash)
    {
      var key := MakeKey(ctx.tenant, path);
      meta := FileMeta(path, size, hash, 1, false, ctx.tenant, ctx.user);
      if key in files {
        meta := meta.(version := files[key].version + 1);
      }
      files := files[key := meta];
    }

    /** `create_upload` */
    method CreateUpload(ctx: Ctx, req: InitRequest) returns (r: Result<UploadId>)
      requires Valid() && ctx.tenant in tenants
      modifies this
      ensures Valid()
      ensures (Model(), r) == Service.CreateUpload(cfg, old(Model()), ctx, req)
      ensures r.Err? <==> !QuotaAllows(cfg, old(Db()), Disk(old(blobs), old(staging)), ctx.tenant, req.totalHash, req.totalSize)
      ensures r.Err? ==> r.error == QuotaExceeded && Model() == old(Model())
    {
      CreateUploadRuns(cfg, Model(), ctx, req);
      RunKeepsStored(cfg, Model(), [InitStep(0, ctx, req), ProceedStep(0)]);
      var t := ctx.tenant;
      var usage := if t in usages then usages[t] else 0;
      var exist := CheckQuota(t, req.totalHash, req.totalSize, usage);
      if exist.Err? { return Err(exist.error); }
      var id := nextId;
      nextId := nextId + 1;
      usages := usages[t := usage];
      uploads := uploads[id := Upload(id, req.path, req.totalSize, req.totalHash, req.chunkCount, [], t, ctx.user)];
      if id !in staging { staging := staging[id := map[]]; }
      assert Model() == Service.CreateUpload(cfg, old(Model()), ctx, req).0;
      return Ok(id);
    }

    /** `replace_chunk` */
    method ReplaceChunk(ctx: Ctx, id: UploadId, index: nat, body: Bytes) returns (r: Result<()>)
      requires Valid() && ctx.tenant in tenants
      modifies this
      ensures Valid()
      ensures (Model(), r) == Service.ReplaceChunk(old(Model()), ctx, id, index, body)
      ensures r == Err(NotFound) <==> !old(id in uploads && uploads[id].tenant == ctx.tenant)
      ensures r == Err(Validation) <==> old(id in uploads && uploads[id].tenant == ctx.tenant && uploads[id].chunkCount <= index)
      ensures r.Err? ==> r.error in {NotFound, Validation, Io} && Model() == old(Model())
      ensures r.Ok? ==>
                && id in uploads && index in uploads[id].chunksReceived && id in staging && index in staging[id]
                && staging[id][index] == body
    {
      ReplaceChunkRuns(cfg, Model(), ctx, id, index, body);
      RunKeepsStored(cfg, Model(), [ChunkStep(0, ctx, id, index, body), ProceedStep(0), ProceedStep(0)]);
      if id !in uploads || uploads[id].tenant != ctx.tenant { return Err(NotFound); }
      if index >= uploads[id].chunkCount { return Err(Validation); }
      if id !in staging { return Err(Io); }
      var chunks: map<nat, Bytes> := staging[id][index := body];
      staging := staging[id := chunks];
      if index !in uploads[id].chunksReceived {
        uploads := uploads[id := uploads[id].(chunksReceived := uploads[id].chunksReceived + [index])];
      }
      return Ok(());
    }

    /** `get_upload` */
    method GetUpload(ctx: Ctx, id: UploadId) returns (r: Result<Upload>)
      ensures r == if Owns(Db(), ctx.tenant, id) then Ok(uploads[id]) else Err(NotFound)
    {
      if id !in uploads || uploads[id].tenant != ctx.tenant { return Err(NotFound); }
      return Ok(uploads[id]);
    }

    /** `reassemble_chunks`, up to the checked temporary file. */
    method Reassemble(id: UploadId, count: nat, expectedHash: Hash, totalSize: nat) returns (r: Result<Bytes>)
      ensures r.Err? && r.error == Io <==> !AllStaged(Disk(blobs, staging), id, count)
      ensures AllStaged(Disk(blobs, staging), id, count) ==>
        var joined := Joined(ChunksOf(Disk(blobs, staging), id), count);
        r == if |joined| != totalSize then Err(SizeMismatch)
             else if cfg.hash(joined) != expectedHash then Err(HashMismatch)
             else Ok(joined)
    {
      var temp: Bytes := [];
      var seenBytes := 0;
      for i := 0 to count
        invariant AllStaged(Disk(blobs, staging), id, i)
        invariant temp == Joined(ChunksOf(Disk(blobs, staging), id), i) && seenBytes == |temp|
      {
        if id !in staging || i !in staging[id] {
          assert i !in ChunksOf(Disk(blobs, staging), id);
          return Err(Io);
        }
        temp := temp + staging[id][i];
        seenBytes := seenBytes + |staging[id][i]|;
      }
      if seenBytes != totalSize { return Err(SizeMismatch); }
      if cfg.hash(temp) != expectedHash { return Err(HashMismatch); }
      return Ok(temp);
    }

    /** `finalize_upload` */
    method FinalizeUpload(ctx: Ctx, id: UploadId) returns (r: Result<FileMeta>)
      requires Valid() && ctx.tenant in tenants
      modifies this
      ensures Valid()
      ensures (Model(), r) == Service.FinalizeUpload(cfg, old(Model()), ctx, id)
      ensures r == Err(NotFound) <==> !old(id in uploads && uploads[id].tenant == ctx.tenant)
      ensures r.Err? ==> Model() == old(Model())
      ensures r.Ok? ==> id !in uploads && id !in staging && old(id in uploads)
                        && BlobAt(cfg, ctx.tenant, old(uploads)[id].totalHash) in blobs
    {
      if id !in uploads || uploads[id].tenant != ctx.tenant { return Err(NotFound); }
      FinalizeUploadKeeps(cfg, Model(), ctx, id);
      assert UploadOk(Db(), Disk(blobs, staging), nextId, id);
      var upload := uploads[id];
      if |upload.chunksReceived| != upload.chunkCount { return Err(Validation); }
      var t := ctx.tenant;
      var blob := BlobAt(cfg, t, upload.totalHash);
      if blob !in blobs {
        var joined := Reassemble(id, upload.chunkCount, upload.totalHash, upload.totalSize);
        if joined.Err? { return Err(joined.error); }
        blobs := blobs[blob := joined.value];
        usages := usages[t := Add64(usages[t], |joined.value|)];
      } else if |blobs[blob]| != upload.totalSize {
        return Err(Validation);
      }
      var meta := PutFile(ctx, upload.path, upload.totalSize, upload.totalHash);
      uploads := uploads - {id};
      staging := staging - {id};
      return Ok(meta);
    }

    /** `delete_file` */
    method DeleteFile(ctx: Ctx, path: Path)
      requires Valid() && ctx.tenant in tenants
      modifies this
      ensures Valid()
      ensures Model() == Service.DeleteFile(old(Model()), ctx, path)
    {
      DeleteFileRuns(cfg, Model(), ctx, path);
      RunKeepsStored(cfg, Model(), [DeleteStep(0, ctx, path), ProceedStep(0)]);
      var key := MakeKey(ctx.tenant, path);
      if key !in files { return; }
      var meta := files[key].(isDeleted := true);
      files := files[key := meta];
    }

    /** `list_files`: the caller's live rows, each once. */
    method ListFiles(ctx: Ctx) returns (list: seq<FileMeta>, ghost keys: seq<string>)
      ensures Enumerates(Listed(files, ctx.tenant), keys, list)
      ensures HoldsRows(Listed(files, ctx.tenant), list)
    {
      list, keys := [], [];
      var rest := files.Keys;
      ghost var done: map<string, FileMeta> := map[];
      while rest != {}
        invariant rest <= files.Keys
        invariant done == map key | key in files && key !in rest && InNamespace(key, ctx.tenant) && !files[key].isDeleted :: files[key]
        invariant Enumerates(done, keys, list)
        decreases |rest|
      {
        var key :| key in rest;
        rest := rest - {key};
        if InNamespace(key, ctx.tenant) && !files[key].isDeleted {
          Enumerate(done, keys, list, key, files[key]);
          list, keys, done := list + [files[key]], keys + [key], done[key := files[key]];
        }
      }
      assert done == Listed(files, ctx.tenant);
      EnumeratesHoldsRows(done, keys, list);
    }

    /** `get_file`: the row, deleted or not, and the blob behind it from byte `start` on. */
    method GetFile(ctx: Ctx, path: Path, start: nat) returns (r: Result<(bool, Bytes)>)
      ensures r == ServeFile(cfg, Model(), ctx, path, start)
    {
      var key := MakeKey(ctx.tenant, path);
      if key !in files { return Err(NotFound); }
      var blob := BlobAt(cfg, ctx.tenant, files[key].contentHash);
      if blob !in blobs { return Err(NotFound); }
      return ServeRange(blobs[blob], start);
    }
  }
}
