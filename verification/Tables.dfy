/** The server's tables and directories, and what each service call does to them. */
module Tables {
  import opened Prelude
  import opened Sums

  /** BLAKE3 and the namespace hash are opaque functions; the limits are fixed. */
  datatype Config = Config(
    hash: Bytes -> Hash,
    nsHash: Tenant -> Hash,
    quota: nat,
    maxTenants: nat,
    maxFileSize: nat)
  {
    ghost predicate Valid() { quota < U64_LIMIT }
  }

  /** The authenticated caller. */
  datatype Ctx = Ctx(tenant: Tenant, user: string)

  datatype FileMeta = FileMeta(
    path: Path,
    size: nat,
    contentHash: Hash,
    version: nat,
    isDeleted: bool,
    tenant: Tenant,
    user: string)

  datatype InitRequest = InitRequest(path: Path, totalSize: nat, totalHash: Hash, chunkCount: nat)

  datatype Upload = Upload(
    id: UploadId,
    path: Path,
    totalSize: nat,
    totalHash: Hash,
    chunkCount: nat,
    chunksReceived: seq<nat>,
    tenant: Tenant,
    user: string)

  /** Everything inside the database file. */
  datatype Db = Db(
    files: map<string, FileMeta>,
    uploads: map<UploadId, Upload>,
    usages: map<Tenant, nat>,
    tenants: set<Tenant>)

  datatype BlobPath = BlobPath(ns: Hash, name: Hash)

  /** Everything on disk beside it: stored blobs and one staging directory for each upload. */
  datatype Disk = Disk(blobs: map<BlobPath, Bytes>, staging: map<UploadId, map<nat, Bytes>>)

  // ---- keys ----

  const SEPARATOR: string := "\0"

  function MakeKey(t: Tenant, p: Path): string { t + SEPARATOR + p }

  predicate NulFree(t: Tenant) { forall i :: 0 <= i < |t| ==> t[i] != '\0' }

  predicate StartsWith(s: string, prefix: string) { |prefix| <= |s| && s[..|prefix|] == prefix }

  /** The row filter of `list`. */
  predicate InNamespace(key: string, t: Tenant) { StartsWith(key, t + SEPARATOR) }

  /** A key lies in the namespace of one NUL-free tenant at most. */
  lemma NamespacesDisjoint(key: string, t: Tenant, u: Tenant)
    requires NulFree(t) && NulFree(u)
    requires InNamespace(key, t) && InNamespace(key, u)
    ensures t == u
  {
    assert forall i :: 0 <= i <= |t| ==> key[i] == (t + SEPARATOR)[i];
    assert forall i :: 0 <= i <= |u| ==> key[i] == (u + SEPARATOR)[i];
    assert key[|t|] == key[|u|] == '\0';
    assert |t| == |u|;
    assert t == key[..|t| + 1][..|t|] && u == key[..|u| + 1][..|u|];
  }

  lemma KeyInNamespace(t: Tenant, p: Path)
    ensures InNamespace(MakeKey(t, p), t)
  {
    assert MakeKey(t, p)[..|t| + 1] == t + SEPARATOR;
  }

  lemma KeyInjective(t: Tenant, u: Tenant, p: Path, q: Path)
    requires t == u || (NulFree(t) && NulFree(u))
    requires MakeKey(t, p) == MakeKey(u, q)
    ensures t == u && p == q
  {
    KeyInNamespace(t, p);
    KeyInNamespace(u, q);
    if t != u {
      NamespacesDisjoint(MakeKey(t, p), t, u);
    }
    assert MakeKey(t, p)[|t| + 1..] == p;
    assert MakeKey(u, q)[|u| + 1..] == q;
  }

  // ---- file rows ----

  /** `put_table`: a fresh row, or the next version of the row already there, deleted or not. */
  function PutRow(files: map<string, FileMeta>, ctx: Ctx, path: Path, size: nat, hash: Hash): FileMeta {
    var key := MakeKey(ctx.tenant, path);
    var version := if key in files then files[key].version + 1 else 1;
    FileMeta(path, size, hash, version, false, ctx.tenant, ctx.user)
  }

  function WithRow(files: map<string, FileMeta>, ctx: Ctx, path: Path, size: nat, hash: Hash): map<string, FileMeta> {
    files[MakeKey(ctx.tenant, path) := PutRow(files, ctx, path, size, hash)]
  }

  /** `delete`, when nothing happens between its two transactions. */
  function MarkDeleted(files: map<string, FileMeta>, key: string): map<string, FileMeta> {
    if key in files then files[key := files[key].(isDeleted := true)] else files
  }

  /** The rows `list` keeps. */
  function Listed(files: map<string, FileMeta>, t: Tenant): map<string, FileMeta> {
    map key | key in files && InNamespace(key, t) && !files[key].isDeleted :: files[key]
  }

  // ---- blobs ----

  function BlobAt(cfg: Config, t: Tenant, hash: Hash): BlobPath { BlobPath(cfg.nsHash(t), hash) }

  predicate Stored(cfg: Config, disk: Disk, t: Tenant, hash: Hash) { BlobAt(cfg, t, hash) in disk.blobs }

  // ---- quota ----

  function UsageOf(db: Db, t: Tenant): nat { if t in db.usages then db.usages[t] else 0 }

  /** What `list_tx` sums: every pending upload of the tenant. */
  ghost function Reservations(db: Db, t: Tenant): map<UploadId, nat> {
    map id | id in db.uploads && db.uploads[id].tenant == t :: db.uploads[id].totalSize
  }

  ghost function Reserved(db: Db, t: Tenant): nat { Sum(Reservations(db, t)) }

  ghost predicate QuotaAllows(cfg: Config, db: Db, disk: Disk, t: Tenant, hash: Hash, size: nat) {
    Stored(cfg, disk, t, hash) || UsageOf(db, t) + size + Reserved(db, t) <= cfg.quota
  }

  /** The unchecked additions of release builds wrap around. */
  function Add64(a: nat, b: nat): nat { (a + b) % U64_LIMIT }

  // ---- the transactions ----

  /** `create_file` up to, but not including, its commit. */
  ghost function StageCreate(cfg: Config, ctx: Ctx, db: Db, disk: Disk, path: Path, content: Bytes): Result<(Db, Disk)> {
    var hash := cfg.hash(content);
    var t := ctx.tenant;
    if !QuotaAllows(cfg, db, disk, t, hash, |content|) then
      Err(QuotaExceeded)
    else
      var files := WithRow(db.files, ctx, path, |content|, hash);
      if Stored(cfg, disk, t, hash) then
        Ok((db.(files := files, usages := db.usages[t := UsageOf(db, t)]), disk))
      else
        Ok((db.(files := files, usages := db.usages[t := Add64(UsageOf(db, t), |content|)]),
            disk.(blobs := disk.blobs[BlobAt(cfg, t, hash) := content])))
  }

  /** `create_upload`, which stages nothing outside the database before its commit. */
  ghost function StageUpload(cfg: Config, ctx: Ctx, db: Db, disk: Disk, req: InitRequest, id: UploadId): Result<Db> {
    var t := ctx.tenant;
    if !QuotaAllows(cfg, db, disk, t, req.totalHash, req.totalSize) then
      Err(QuotaExceeded)
    else
      var upload := Upload(id, req.path, req.totalSize, req.totalHash, req.chunkCount, [], t, ctx.user);
      Ok(db.(uploads := db.uploads[id := upload], usages := db.usages[t := UsageOf(db, t)]))
  }

  /** The tenant filter on single uploads. */
  predicate Owns(db: Db, t: Tenant, id: UploadId) { id in db.uploads && db.uploads[id].tenant == t }

  /** The lookups at the head of `replace_chunk`. */
  function CheckChunk(db: Db, ctx: Ctx, id: UploadId, index: nat): Result<()> {
    if !Owns(db, ctx.tenant, id) then Err(NotFound)
    else if index >= db.uploads[id].chunkCount then Err(Validation)
    else Ok(())
  }

  /** `add_chunk`. */
  function AddChunk(db: Db, ctx: Ctx, id: UploadId, index: nat): Db {
    if !Owns(db, ctx.tenant, id) || index in db.uploads[id].chunksReceived then db
    else
      var upload := db.uploads[id];
      db.(uploads := db.uploads[id := upload.(chunksReceived := upload.chunksReceived + [index])])
  }

  /** The write of a chunk file: it fails when the staging directory is not there. */
  function WriteChunk(disk: Disk, id: UploadId, index: nat, body: Bytes): Disk {
    if id !in disk.staging then disk
    else
      var chunks: map<nat, Bytes> := disk.staging[id][index := body];
      disk.(staging := disk.staging[id := chunks])
  }

  /** `create_dir_all`. */
  function MakeStaging(disk: Disk, id: UploadId): Disk {
    if id in disk.staging then disk else disk.(staging := disk.staging[id := map[]])
  }

  function RemoveStaging(disk: Disk, id: UploadId): Disk {
    disk.(staging := disk.staging - {id})
  }

  /** The checks of `finalize_upload` before it touches any blob. */
  function CheckFinalize(db: Db, ctx: Ctx, id: UploadId): Result<Upload> {
    if !Owns(db, ctx.tenant, id) then Err(NotFound)
    else if |db.uploads[id].chunksReceived| != db.uploads[id].chunkCount then Err(Validation)
    else Ok(db.uploads[id])
  }

  /** The table changes of a successful `finalize_upload`; `charge` is what was newly stored. */
  function FinalizeDb(db: Db, ctx: Ctx, upload: Upload, charge: Option<nat>): Db {
    var t := ctx.tenant;
    db.(files := WithRow(db.files, ctx, upload.path, upload.totalSize, upload.totalHash),
        uploads := db.uploads - {upload.id},
        usages := match charge
                  case None => db.usages
                  case Some(n) => db.usages[t := Add64(UsageOf(db, t), n)])
  }

  /** The size and hash checks on the reassembled temporary file. */
  function CheckJoined(cfg: Config, upload: Upload, joined: Bytes): Result<()> {
    if |joined| != upload.totalSize then Err(SizeMismatch)
    else if cfg.hash(joined) != upload.totalHash then Err(HashMismatch)
    else Ok(())
  }

  /** `admit_tenant`. */
  function Admit(cfg: Config, db: Db, t: Tenant): (r: (Db, bool))
    ensures r.1 <==> t in r.0.tenants
    ensures !r.1 <==> t !in db.tenants && cfg.maxTenants <= |db.tenants|
    ensures db.tenants <= r.0.tenants <= db.tenants + {t} && r.0 == db.(tenants := r.0.tenants)
  {
    if t in db.tenants then (db, true)
    else if |db.tenants| >= cfg.maxTenants then (db, false)
    else (db.(tenants := db.tenants + {t}), true)
  }
}
