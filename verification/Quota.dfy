/**
 * The quota invariant. A reservation counts only while its blob is not stored: a request for a
 * stored blob skips the quota check and reserves its size all the same.
 */
module Quota {
  import opened Prelude
  import opened Sums
  import opened Tables

  ghost function Unstored(cfg: Config, db: Db, disk: Disk, t: Tenant): map<UploadId, nat> {
    map id | id in db.uploads && db.uploads[id].tenant == t && !Stored(cfg, disk, t, db.uploads[id].totalHash)
      :: db.uploads[id].totalSize
  }

  ghost predicate WithinQuota(cfg: Config, db: Db, disk: Disk, t: Tenant) {
    UsageOf(db, t) + Sum(Unstored(cfg, db, disk, t)) <= cfg.quota
  }

  ghost predicate QuotaInv(cfg: Config, db: Db, disk: Disk) {
    forall t :: WithinQuota(cfg, db, disk, t)
  }

  /** Storing more blobs releases reservations. */
  lemma MoreBlobs(cfg: Config, db: Db, disk: Disk, more: Disk)
    requires QuotaInv(cfg, db, disk)
    requires disk.blobs.Keys <= more.blobs.Keys
    ensures QuotaInv(cfg, db, more)
  {
    forall t ensures WithinQuota(cfg, db, more, t) {
      assert WithinQuota(cfg, db, disk, t);
      SumSubmap(Unstored(cfg, db, more, t), Unstored(cfg, db, disk, t));
    }
  }

  /** Tables that agree on usages and on who reserved what agree on the quota. */
  lemma SameReservations(cfg: Config, db: Db, db': Db, disk: Disk)
    requires QuotaInv(cfg, db, disk)
    requires forall t :: UsageOf(db', t) == UsageOf(db, t)
    requires forall id :: id in db'.uploads ==> (
      && id in db.uploads
      && db'.uploads[id].tenant == db.uploads[id].tenant
      && db'.uploads[id].totalHash == db.uploads[id].totalHash
      && db'.uploads[id].totalSize == db.uploads[id].totalSize)
    ensures QuotaInv(cfg, db', disk)
  {
    forall t ensures WithinQuota(cfg, db', disk, t) {
      assert WithinQuota(cfg, db, disk, t);
      SumSubmap(Unstored(cfg, db', disk, t), Unstored(cfg, db, disk, t));
    }
  }

  lemma UnstoredWithinReserved(cfg: Config, db: Db, disk: Disk, t: Tenant)
    ensures Sum(Unstored(cfg, db, disk, t)) <= Reserved(db, t)
  {
    SumSubmap(Unstored(cfg, db, disk, t), Reservations(db, t));
  }

  lemma CreateKeepsQuota(cfg: Config, ctx: Ctx, db: Db, disk: Disk, path: Path, content: Bytes)
    requires cfg.Valid() && QuotaInv(cfg, db, disk)
    requires StageCreate(cfg, ctx, db, disk, path, content).Ok?
    ensures var (db', disk') := StageCreate(cfg, ctx, db, disk, path, content).value;
            QuotaInv(cfg, db', disk') && QuotaInv(cfg, db, disk')
            && (!Stored(cfg, disk, ctx.tenant, cfg.hash(content)) ==>
                UsageOf(db', ctx.tenant) == UsageOf(db, ctx.tenant) + |content|)
  {
    var (db', disk') := StageCreate(cfg, ctx, db, disk, path, content).value;
    MoreBlobs(cfg, db, disk, disk');
    forall t ensures WithinQuota(cfg, db', disk', t) {
      assert WithinQuota(cfg, db, disk', t);
      UnstoredWithinReserved(cfg, db, disk', t);
      assert Unstored(cfg, db', disk', t) == Unstored(cfg, db, disk', t);
    }
  }

  lemma InitKeepsTenant(cfg: Config, ctx: Ctx, db: Db, disk: Disk, req: InitRequest, id: UploadId, t: Tenant)
    requires WithinQuota(cfg, db, disk, t) && id !in db.uploads
    requires StageUpload(cfg, ctx, db, disk, req, id).Ok?
    ensures WithinQuota(cfg, StageUpload(cfg, ctx, db, disk, req, id).value, disk, t)
  {
    var db' := StageUpload(cfg, ctx, db, disk, req, id).value;
    var before := Unstored(cfg, db, disk, t);
    if t == ctx.tenant && !Stored(cfg, disk, t, req.totalHash) {
      UnstoredWithinReserved(cfg, db, disk, t);
      SumPut(before, id, req.totalSize);
      assert Unstored(cfg, db', disk, t) == before[id := req.totalSize];
    } else {
      assert Unstored(cfg, db', disk, t) == before;
    }
  }

  lemma InitKeepsQuota(cfg: Config, ctx: Ctx, db: Db, disk: Disk, req: InitRequest, id: UploadId)
    requires QuotaInv(cfg, db, disk) && id !in db.uploads
    requires StageUpload(cfg, ctx, db, disk, req, id).Ok?
    ensures QuotaInv(cfg, StageUpload(cfg, ctx, db, disk, req, id).value, disk)
  {
    forall t ensures WithinQuota(cfg, StageUpload(cfg, ctx, db, disk, req, id).value, disk, t) {
      assert WithinQuota(cfg, db, disk, t);
      InitKeepsTenant(cfg, ctx, db, disk, req, id, t);
    }
  }

  /** Finalizing turns a reservation into a charge of the same size. */
  lemma FinalizeKeepsQuota(cfg: Config, ctx: Ctx, db: Db, disk: Disk, upload: Upload, content: Bytes)
    requires cfg.Valid() && QuotaInv(cfg, db, disk)
    requires Owns(db, ctx.tenant, upload.id) && db.uploads[upload.id] == upload
    requires !Stored(cfg, disk, ctx.tenant, upload.totalHash)
    requires |content| == upload.totalSize
    ensures var disk' := disk.(blobs := disk.blobs[BlobAt(cfg, ctx.tenant, upload.totalHash) := content]);
            var db' := FinalizeDb(db, ctx, upload, Some(|content|));
            QuotaInv(cfg, db', disk') && QuotaInv(cfg, db, disk')
            && UsageOf(db', ctx.tenant) == UsageOf(db, ctx.tenant) + upload.totalSize
  {
    var disk' := disk.(blobs := disk.blobs[BlobAt(cfg, ctx.tenant, upload.totalHash) := content]);
    var db' := FinalizeDb(db, ctx, upload, Some(|content|));
    MoreBlobs(cfg, db, disk, disk');
    var before := Unstored(cfg, db, disk, ctx.tenant);
    SumAt(before, upload.id);
    assert WithinQuota(cfg, db, disk, ctx.tenant);
    forall t ensures WithinQuota(cfg, db', disk', t) {
      assert WithinQuota(cfg, db, disk', t);
      if t == ctx.tenant {
        SumSubmap(Unstored(cfg, db', disk', t), before - {upload.id});
      } else {
        SumSubmap(Unstored(cfg, db', disk', t), Unstored(cfg, db, disk', t));
      }
    }
  }
}
