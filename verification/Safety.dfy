/** Whole-run claims about quota, staged chunks and tenant admission. */
module Safety {
  import opened Prelude
  import opened Sums
  import opened Tables
  import opened Quota
  import opened Machine
  import opened Invariants

  /**
   * In every reachable state each tenant's usage plus its reservations for blobs not yet stored is
   * within the quota, both in the committed tables and in those an open transaction will commit.
   */
  lemma QuotaIsSafe(cfg: Config, steps: seq<Step>, t: Tenant)
    requires cfg.Valid()
    ensures var s := Run(cfg, Init(), steps);
            WithinQuota(cfg, s.db, s.disk, t) && (s.txn.Ready? ==> WithinQuota(cfg, s.txn.tables, s.disk, t))
    ensures UsageOf(Run(cfg, Init(), steps).db, t) <= cfg.quota
  {
    InitHolds(cfg);
    RunKeeps(cfg, Init(), steps);
    assert WithinQuota(cfg, Run(cfg, Init(), steps).db, Run(cfg, Init(), steps).disk, t);
  }

  /** What a transaction about to commit has stored and charged. */
  ghost predicate ChargedWhatItStored(cfg: Config, s: State, s': State) {
    s'.txn.Ready? ==>
      var t := s'.txn.owner;
      var usage := UsageOf(s'.txn.tables, t);
      && usage <= cfg.quota
      && ((s'.disk.blobs == s.disk.blobs && usage == UsageOf(s.db, t))
          || exists name: Hash, content: Bytes :: s'.disk.blobs == s.disk.blobs[BlobAt(cfg, t, name) := content]
               && !Stored(cfg, s.disk, t, name) && usage == UsageOf(s.db, t) + |content|)
  }

  lemma CreateCharge(cfg: Config, s: State, ctx: Ctx, path: Path, content: Bytes)
    requires cfg.Valid() && Inv(cfg, s) && MayWrite(s, ctx)
    ensures ChargedWhatItStored(cfg, s, Next(cfg, s, CreateStep(ctx, path, content)))
  {
    var s' := Next(cfg, s, CreateStep(ctx, path, content));
    CreateKeeps(cfg, s, ctx, path, content);
    if s'.txn.Ready? {
      assert WithinQuota(cfg, s'.txn.tables, s'.disk, ctx.tenant);
      CreateKeepsQuota(cfg, ctx, s.db, s.disk, path, content);
      if !Stored(cfg, s.disk, ctx.tenant, cfg.hash(content)) {
        assert s'.disk.blobs == s.disk.blobs[BlobAt(cfg, ctx.tenant, cfg.hash(content)) := content];
      }
    }
  }

  lemma FinalizeCharge(cfg: Config, s: State, ctx: Ctx, id: UploadId)
    requires cfg.Valid() && Inv(cfg, s) && MayWrite(s, ctx)
    ensures ChargedWhatItStored(cfg, s, Begin(cfg, s, ctx, id))
  {
    BeginKeeps(cfg, s, ctx, id);
    assert WithinQuota(cfg, s.db, s.disk, ctx.tenant);
  }

  lemma PersistCharge(cfg: Config, s: State)
    requires cfg.Valid() && Inv(cfg, s) && s.txn.Copying?
    ensures ChargedWhatItStored(cfg, s, Persist(cfg, s))
  {
    var Copying(ctx, id, _, temp) := s.txn;
    var upload := s.db.uploads[id];
    var s' := Persist(cfg, s);
    PersistKeeps(cfg, s);
    assert UploadOk(s.db, s.disk, s.nextId, id);
    if s'.txn.Ready? {
      assert WithinQuota(cfg, s'.txn.tables, s'.disk, ctx.tenant);
      FinalizeKeepsQuota(cfg, ctx, s.db, s.disk, upload, temp);
      assert s'.disk.blobs == s.disk.blobs[BlobAt(cfg, ctx.tenant, upload.totalHash) := temp];
    }
  }

  /**
   * The two unchecked additions never wrap: the step that makes a transaction ready to commit
   * leaves its owner's usage as it was, or raises it by exactly the size of the one blob it
   * stored, and not beyond the quota.
   */
  lemma ChargeIsExact(cfg: Config, steps: seq<Step>, step: Step)
    requires cfg.Valid()
    ensures var s := Run(cfg, Init(), steps);
            !s.txn.Ready? ==> ChargedWhatItStored(cfg, s, Next(cfg, s, step))
  {
    InitHolds(cfg);
    RunKeeps(cfg, Init(), steps);
    var s := Run(cfg, Init(), steps);
    match step
    case CreateStep(ctx, path, content) => if MayWrite(s, ctx) { CreateCharge(cfg, s, ctx, path, content); }
    case FinalizeStep(ctx, id) => if MayWrite(s, ctx) { FinalizeCharge(cfg, s, ctx, id); }
    case PersistStep => if s.txn.Copying? { PersistCharge(cfg, s); }
    case _ =>
  }

  /** Distinct chunk numbers below the count, as many as the count, are all of them. */
  lemma AllReceived(received: seq<nat>, count: nat)
    requires NoDuplicates(received) && |received| == count
    requires forall i :: 0 <= i < |received| ==> received[i] < count
    ensures forall i :: 0 <= i < count ==> i in received
  {
    BelowCount(count);
    DistinctCount(received);
    assert Elements(received) <= Below(count);
    SubsetOfSameSize(Elements(received), Below(count));
    forall i | 0 <= i < count ensures i in received {
      assert i in Below(count);
      assert i in Elements(received);
    }
  }

  function Below(n: nat): set<nat> { if n == 0 then {} else Below(n - 1) + {n - 1} }

  lemma {:induction false} BelowCount(n: nat)
    ensures |Below(n)| == n
    ensures forall i :: i in Below(n) <==> 0 <= i < n
  {
    if n > 0 { BelowCount(n - 1); }
  }

  lemma SubsetOfSameSize<T>(a: set<T>, b: set<T>)
    requires a <= b && |a| == |b|
    ensures a == b
  {
    assert |b - a| == |b| - |a|;
  }

  lemma CompleteIsStaged(db: Db, disk: Disk, nextId: UploadId, id: UploadId)
    requires id in db.uploads && UploadOk(db, disk, nextId, id)
    requires |db.uploads[id].chunksReceived| == db.uploads[id].chunkCount
    ensures forall i :: 0 <= i < db.uploads[id].chunkCount ==> Staged(disk, id, i)
  {
    var upload := db.uploads[id];
    AllReceived(upload.chunksReceived, upload.chunkCount);
    forall i | 0 <= i < upload.chunkCount ensures Staged(disk, id, i) {
      assert i in upload.chunksReceived;
      var k :| 0 <= k < |upload.chunksReceived| && upload.chunksReceived[k] == i;
    }
  }

  /** `finalize_upload` never meets a missing chunk file, nor a tenant without a usage row. */
  lemma NothingMissing(cfg: Config, s: State, torn: Bytes)
    requires Inv(cfg, s) && s.txn.Copying?
    ensures var Copying(ctx, id, next, temp) := s.txn;
            && ctx.tenant in s.db.usages
            && forall i :: 0 <= i < s.db.uploads[id].chunkCount ==> Staged(s.disk, id, i)
    ensures var Copying(ctx, id, next, temp) := s.txn;
            next < s.db.uploads[id].chunkCount ==>
              Staged(s.disk, id, next)
              && (var txn := Next(cfg, s, CopyStep(torn)).txn;
                  txn.Copying? && txn == Copying(ctx, id, next + 1, txn.temp)
                  && (!BeingWritten(s, id, next) ==> txn.temp == temp + s.disk.staging[id][next]))
  {
    assert UploadOk(s.db, s.disk, s.nextId, s.txn.id);
    CompleteIsStaged(s.db, s.disk, s.nextId, s.txn.id);
  }

  /** So in every reachable state; and an upload with as many chunks as it needs has all of them on disk. */
  lemma CountingIsEnough(cfg: Config, steps: seq<Step>, torn: Bytes)
    requires cfg.Valid()
    ensures var s := Run(cfg, Init(), steps);
            s.txn.Copying? ==>
              s.txn.id in s.db.uploads
              && (s.txn.next < s.db.uploads[s.txn.id].chunkCount ==> Next(cfg, s, CopyStep(torn)).txn.Copying?)
    ensures var s := Run(cfg, Init(), steps);
            forall id :: id in s.db.uploads && |s.db.uploads[id].chunksReceived| == s.db.uploads[id].chunkCount ==>
              forall i :: 0 <= i < s.db.uploads[id].chunkCount ==> Staged(s.disk, id, i)
  {
    InitHolds(cfg);
    RunKeeps(cfg, Init(), steps);
    var s := Run(cfg, Init(), steps);
    if s.txn.Copying? { NothingMissing(cfg, s, torn); }
    forall id | id in s.db.uploads && |s.db.uploads[id].chunksReceived| == s.db.uploads[id].chunkCount
      ensures forall i :: 0 <= i < s.db.uploads[id].chunkCount ==> Staged(s.disk, id, i)
    {
      assert UploadOk(s.db, s.disk, s.nextId, id);
      CompleteIsStaged(s.db, s.disk, s.nextId, id);
    }
  }

  // ---- admission ----

  ghost function TotalUsage(db: Db): nat { Sum(db.usages) }

  /** At most `maxTenants` tenants exist and their usages together are within that many quotas. */
  lemma ServerIsBounded(cfg: Config, steps: seq<Step>)
    requires cfg.Valid()
    ensures var s := Run(cfg, Init(), steps);
            |s.db.tenants| <= cfg.maxTenants && TotalUsage(s.db) <= cfg.maxTenants * cfg.quota
  {
    InitHolds(cfg);
    RunKeeps(cfg, Init(), steps);
    var s := Run(cfg, Init(), steps);
    TablesBounded(cfg, s.db, s.disk, s.nextId);
  }

  lemma TablesBounded(cfg: Config, db: Db, disk: Disk, nextId: UploadId)
    requires TablesOk(cfg, db, disk, nextId)
    ensures TotalUsage(db) <= cfg.maxTenants * cfg.quota
  {
    forall t | t in db.usages ensures db.usages[t] <= cfg.quota {
      assert WithinQuota(cfg, db, disk, t);
    }
    SumBound(db.usages, cfg.quota);
    SubsetSize(db.usages.Keys, db.tenants);
    MulMono(|db.usages|, cfg.maxTenants, cfg.quota);
  }

  lemma SubsetSize<T>(a: set<T>, b: set<T>)
    requires a <= b
    ensures |a| <= |b|
  {
    assert b == a + (b - a);
  }

  lemma MulMono(a: nat, b: nat, k: nat)
    requires a <= b
    ensures a * k <= b * k
  {
  }

  ghost predicate OpenKeepsTenants(s: State) {
    s.txn.Ready? ==> s.txn.tables.tenants == s.db.tenants
  }

  lemma StepKeepsTenants(cfg: Config, s: State, step: Step)
    requires OpenKeepsTenants(s)
    ensures s.db.tenants <= Next(cfg, s, step).db.tenants && OpenKeepsTenants(Next(cfg, s, step))
  {
  }

  lemma {:induction false} AdmittedForGood(cfg: Config, s: State, steps: seq<Step>)
    requires OpenKeepsTenants(s)
    ensures s.db.tenants <= Run(cfg, s, steps).db.tenants && OpenKeepsTenants(Run(cfg, s, steps))
    decreases |steps|
  {
    if steps != [] {
      StepKeepsTenants(cfg, s, steps[0]);
      AdmittedForGood(cfg, Next(cfg, s, steps[0]), steps[1..]);
    }
  }

  /** A tenant once admitted is never refused, however full the server has become. */
  lemma NeverRefusedLater(cfg: Config, steps: seq<Step>, later: seq<Step>, t: Tenant)
    requires t in Run(cfg, Init(), steps).db.tenants
    ensures Admit(cfg, Run(cfg, Init(), steps + later).db, t).1
  {
    AdmittedForGood(cfg, Init(), steps);
    AdmittedForGood(cfg, Run(cfg, Init(), steps), later);
    RunAppend(cfg, Init(), steps, later);
  }
}
