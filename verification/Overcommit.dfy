/**
 * The bound one would expect, usage plus every reservation within the quota: which single kind of
 * step breaks it, and that nothing else ever does.
 */
module Overcommit {
  import opened Prelude
  import opened Sums
  import opened Tables
  import opened Machine
  import opened Invariants

  ghost predicate FullyReserved(cfg: Config, db: Db) {
    forall t :: UsageOf(db, t) + Reserved(db, t) <= cfg.quota
  }

  /** Also in the tables an open transaction will commit. */
  ghost predicate FullBound(cfg: Config, s: State) {
    FullyReserved(cfg, s.db) && (s.txn.Ready? ==> FullyReserved(cfg, s.txn.tables))
  }

  /** An upload request for a stored blob, let in although it would not pass the check that is skipped for it. */
  ghost predicate Overcommits(cfg: Config, s: State, step: Step) {
    && step.InitStep? && MayWrite(s, step.ctx) && step.r !in s.ops
    && Stored(cfg, s.disk, step.ctx.tenant, step.req.totalHash)
    && UsageOf(s.db, step.ctx.tenant) + step.req.totalSize + Reserved(s.db, step.ctx.tenant) > cfg.quota
  }

  /** Tables with the same usages, and no other reservations than these. */
  lemma NoMoreReserved(cfg: Config, db: Db, db': Db)
    requires FullyReserved(cfg, db)
    requires forall t :: UsageOf(db', t) == UsageOf(db, t)
    requires forall id :: id in db'.uploads ==>
      id in db.uploads && db'.uploads[id].tenant == db.uploads[id].tenant && db'.uploads[id].totalSize == db.uploads[id].totalSize
    ensures FullyReserved(cfg, db')
  {
    forall t ensures UsageOf(db', t) + Reserved(db', t) <= cfg.quota {
      SumSubmap(Reservations(db', t), Reservations(db, t));
      assert UsageOf(db, t) + Reserved(db, t) <= cfg.quota;
    }
  }

  lemma CreateKeepsBound(cfg: Config, s: State, ctx: Ctx, path: Path, content: Bytes)
    requires cfg.Valid() && FullBound(cfg, s) && MayWrite(s, ctx)
    requires StageCreate(cfg, ctx, s.db, s.disk, path, content).Ok?
    ensures FullyReserved(cfg, StageCreate(cfg, ctx, s.db, s.disk, path, content).value.0)
  {
    var db' := StageCreate(cfg, ctx, s.db, s.disk, path, content).value.0;
    forall t ensures UsageOf(db', t) + Reserved(db', t) <= cfg.quota {
      assert UsageOf(s.db, t) + Reserved(s.db, t) <= cfg.quota;
      assert Reservations(db', t) == Reservations(s.db, t);
    }
  }

  lemma ReservationsPut(db: Db, db': Db, id: UploadId, upload: Upload, t: Tenant)
    requires id !in db.uploads && db'.uploads == db.uploads[id := upload]
    ensures Reservations(db', t)
            == if upload.tenant == t then Reservations(db, t)[id := upload.totalSize] else Reservations(db, t)
  {
  }

  lemma OneMoreReserved(cfg: Config, db: Db, disk: Disk, ctx: Ctx, req: InitRequest, id: UploadId, t: Tenant)
    requires id !in db.uploads && StageUpload(cfg, ctx, db, disk, req, id).Ok?
    ensures var db' := StageUpload(cfg, ctx, db, disk, req, id).value;
            && UsageOf(db', t) == UsageOf(db, t)
            && Reserved(db', t) == Reserved(db, t) + if t == ctx.tenant then req.totalSize else 0
  {
    var db' := StageUpload(cfg, ctx, db, disk, req, id).value;
    ReservationsPut(db, db', id, db'.uploads[id], t);
    SumPut(Reservations(db, t), id, req.totalSize);
  }

  /** An accepted request keeps the bound if and only if the skipped check would have let it in. */
  lemma UploadKeepsBoundIff(cfg: Config, db: Db, disk: Disk, ctx: Ctx, req: InitRequest, id: UploadId)
    requires FullyReserved(cfg, db) && id !in db.uploads && StageUpload(cfg, ctx, db, disk, req, id).Ok?
    ensures FullyReserved(cfg, StageUpload(cfg, ctx, db, disk, req, id).value)
            <==> UsageOf(db, ctx.tenant) + req.totalSize + Reserved(db, ctx.tenant) <= cfg.quota
  {
    var db' := StageUpload(cfg, ctx, db, disk, req, id).value;
    forall t ensures UsageOf(db', t) + Reserved(db', t)
                     == UsageOf(db, t) + Reserved(db, t) + if t == ctx.tenant then req.totalSize else 0
    {
      OneMoreReserved(cfg, db, disk, ctx, req, id, t);
    }
    if FullyReserved(cfg, db') {
      assert UsageOf(db', ctx.tenant) + Reserved(db', ctx.tenant) <= cfg.quota;
    } else {
      assert forall t :: UsageOf(db, t) + Reserved(db, t) <= cfg.quota;
    }
  }

  lemma ReservationsDrop(db: Db, db': Db, id: UploadId, t: Tenant)
    requires id in db.uploads && db'.uploads == db.uploads - {id}
    ensures Reservations(db', t) == if db.uploads[id].tenant == t then Reservations(db, t) - {id} else Reservations(db, t)
  {
  }

  /** Closing an upload gives back what a charge of its size takes. */
  lemma FinalizeKeepsBound(cfg: Config, db: Db, ctx: Ctx, upload: Upload, charge: Option<nat>)
    requires cfg.Valid() && FullyReserved(cfg, db)
    requires Owns(db, ctx.tenant, upload.id) && db.uploads[upload.id] == upload
    requires charge.Some? ==> charge.value == upload.totalSize
    ensures FullyReserved(cfg, FinalizeDb(db, ctx, upload, charge))
  {
    var db' := FinalizeDb(db, ctx, upload, charge);
    SumAt(Reservations(db, ctx.tenant), upload.id);
    assert UsageOf(db, ctx.tenant) + Reserved(db, ctx.tenant) <= cfg.quota;
    forall t ensures UsageOf(db', t) + Reserved(db', t) <= cfg.quota {
      ReservationsDrop(db, db', upload.id, t);
      assert UsageOf(db, t) + Reserved(db, t) <= cfg.quota;
    }
  }

  lemma InitStepKeepsBoundIff(cfg: Config, s: State, r: nat, ctx: Ctx, req: InitRequest)
    requires Inv(cfg, s) && FullBound(cfg, s)
    ensures FullBound(cfg, Next(cfg, s, InitStep(r, ctx, req))) <==> !Overcommits(cfg, s, InitStep(r, ctx, req))
  {
    if MayWrite(s, ctx) && r !in s.ops && StageUpload(cfg, ctx, s.db, s.disk, req, s.nextId).Ok? {
      assert s.nextId !in s.db.uploads by {
        assert forall id :: id in s.db.uploads ==> UploadOk(s.db, s.disk, s.nextId, id);
      }
      UploadKeepsBoundIff(cfg, s.db, s.disk, ctx, req, s.nextId);
    }
  }

  lemma FinalizeStepsKeepBound(cfg: Config, s: State, step: Step)
    requires cfg.Valid() && Inv(cfg, s) && FullBound(cfg, s) && (step.FinalizeStep? || step.PersistStep?)
    ensures FullBound(cfg, Next(cfg, s, step))
  {
    if step.PersistStep? && s.txn.Copying? {
      var upload := s.db.uploads[s.txn.id];
      assert UploadOk(s.db, s.disk, s.nextId, s.txn.id);
      FinalizeKeepsBound(cfg, s.db, s.txn.ctx, upload, Some(upload.totalSize));
    }
    if step.FinalizeStep? && CheckFinalize(s.db, step.ctx, step.id).Ok? {
      assert UploadOk(s.db, s.disk, s.nextId, step.id);
      FinalizeKeepsBound(cfg, s.db, step.ctx, s.db.uploads[step.id], None);
    }
  }

  lemma ProceedKeepsBound(cfg: Config, s: State, r: nat)
    requires FullBound(cfg, s) && r in s.ops
    ensures FullBound(cfg, Proceed(s, r))
  {
    NoMoreReserved(cfg, s.db, Proceed(s, r).db);
  }

  lemma OtherStepsKeepBound(cfg: Config, s: State, step: Step)
    requires FullBound(cfg, s)
    requires !step.CreateStep? && !step.InitStep? && !step.FinalizeStep? && !step.PersistStep?
    ensures FullBound(cfg, Next(cfg, s, step))
  {
    match step
    case AdmitStep(_) => NoMoreReserved(cfg, s.db, Next(cfg, s, step).db);
    case ProceedStep(r) => if r in s.ops { ProceedKeepsBound(cfg, s, r); }
    case _ =>
  }

  /** Every step keeps the bound, but for an upload request of that one kind, and that one never does. */
  lemma StepKeepsBoundIff(cfg: Config, s: State, step: Step)
    requires cfg.Valid() && Inv(cfg, s) && FullBound(cfg, s)
    ensures FullBound(cfg, Next(cfg, s, step)) <==> !Overcommits(cfg, s, step)
  {
    match step
    case CreateStep(ctx, path, content) =>
      if MayWrite(s, ctx) && StageCreate(cfg, ctx, s.db, s.disk, path, content).Ok? {
        CreateKeepsBound(cfg, s, ctx, path, content);
      }
    case InitStep(r, ctx, req) => InitStepKeepsBoundIff(cfg, s, r, ctx, req);
    case FinalizeStep(_, _) => FinalizeStepsKeepBound(cfg, s, step);
    case PersistStep => FinalizeStepsKeepBound(cfg, s, step);
    case _ => OtherStepsKeepBound(cfg, s, step);
  }

  ghost predicate BoundSoFar(cfg: Config, steps: seq<Step>, n: nat)
    requires n <= |steps|
  {
    forall k :: 0 <= k <= n ==> FullBound(cfg, Run(cfg, Init(), steps[..k]))
  }

  ghost predicate NoneSoFar(cfg: Config, steps: seq<Step>, n: nat)
    requires n <= |steps|
  {
    forall k :: 0 <= k < n ==> !Overcommits(cfg, Run(cfg, Init(), steps[..k]), steps[k])
  }

  lemma {:induction false} PrefixKeepsBoundIff(cfg: Config, steps: seq<Step>, n: nat)
    requires cfg.Valid() && n <= |steps|
    ensures BoundSoFar(cfg, steps, n) <==> NoneSoFar(cfg, steps, n)
  {
    if n == 0 {
      assert forall t :: Reservations(Init().db, t) == map[];
      assert steps[..0] == [];
    } else {
      PrefixKeepsBoundIff(cfg, steps, n - 1);
      assert BoundSoFar(cfg, steps, n) <==> BoundSoFar(cfg, steps, n - 1) && FullBound(cfg, Run(cfg, Init(), steps[..n]));
      if BoundSoFar(cfg, steps, n - 1) {
        var s := Run(cfg, Init(), steps[..n - 1]);
        InitHolds(cfg);
        RunKeeps(cfg, Init(), steps[..n - 1]);
        RunNext(cfg, Init(), steps, n - 1);
        StepKeepsBoundIff(cfg, s, steps[n - 1]);
      }
    }
  }

  /**
   * Over every run from an empty server: the bound holds in all its states if and only if the run
   * never lets in an upload request that only skipping the check could let in.
   */
  lemma RunKeepsBoundIff(cfg: Config, steps: seq<Step>)
    requires cfg.Valid()
    ensures (forall k :: 0 <= k <= |steps| ==> FullBound(cfg, Run(cfg, Init(), steps[..k])))
            <==> (forall k :: 0 <= k < |steps| ==> !Overcommits(cfg, Run(cfg, Init(), steps[..k]), steps[k]))
  {
    PrefixKeepsBoundIff(cfg, steps, |steps|);
  }

  function ThreeBytesTwice(ctx: Ctx, path: Path, content: Bytes, hash: Hash): seq<Step> {
    [AdmitStep(ctx.tenant), CreateStep(ctx, path, content), CommitStep(0), InitStep(0, ctx, InitRequest(path, 3, hash, 1))]
  }

  /** Such runs exist: a tenant that has stored three bytes under a quota of three reserves three more. */
  lemma BoundIsBroken(cfg: Config, ctx: Ctx, path: Path, content: Bytes)
    requires |content| == 3 && cfg.quota == 3 && cfg.maxTenants > 0
    ensures var s := Run(cfg, Init(), ThreeBytesTwice(ctx, path, content, cfg.hash(content)));
            UsageOf(s.db, ctx.tenant) + Reserved(s.db, ctx.tenant) == 6
  {
    var steps := ThreeBytesTwice(ctx, path, content, cfg.hash(content));
    var s0 := Init();
    var s1 := Next(cfg, s0, steps[0]);
    assert Reservations(s1.db, ctx.tenant) == map[];
    var s2 := Next(cfg, s1, steps[1]);
    assert s2.txn.Ready?;
    var s3 := Next(cfg, s2, steps[2]);
    assert UsageOf(s3.db, ctx.tenant) == 3 && Reservations(s3.db, ctx.tenant) == map[];
    var s4 := Next(cfg, s3, steps[3]);
    SumPut(map[], 0 as UploadId, 3);
    assert Reservations(s4.db, ctx.tenant) == map[][0 := 3];
    RunFour(cfg, s0, steps[0], steps[1], steps[2], steps[3]);
  }
}
