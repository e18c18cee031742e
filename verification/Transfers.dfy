/** Chunk writes of one upload that overlap in time, step by step. */
module Transfers {
  import opened Prelude
  import opened Chunks
  import opened Tables
  import opened Machine
  import opened Service

  /** A step of some request that sends a chunk of `file`. */
  predicate SendsChunk(step: Step, ctx: Ctx, id: UploadId, file: Bytes) {
    step.ProceedStep? || (step.ChunkStep? && step.ctx == ctx && step.id == id && step.body == Slice(file, step.index))
  }

  /** The chunk, if any, that the step enters in the received list. */
  function Added(s: State, step: Step): seq<nat> {
    if step.ProceedStep? && step.r in s.ops && s.ops[step.r].ChunkWritten? && s.txn.Idle? then [s.ops[step.r].index] else []
  }

  /** The chunk numbers in the order in which they were added. */
  ghost function AddOrder(cfg: Config, s: State, steps: seq<Step>): seq<nat>
    decreases |steps|
  {
    if steps == [] then []
    else
      var n := |steps| - 1;
      AddOrder(cfg, s, steps[..n]) + Added(Run(cfg, s, steps[..n]), steps[n])
  }

  /** Staged chunks with some replaced by the file's slices. */
  function Overlay(base: map<nat, Bytes>, written: set<nat>, file: Bytes): map<nat, Bytes> {
    map i | i in base.Keys + written :: if i in written then Slice(file, i) else base[i]
  }

  lemma OverlayOne(base: map<nat, Bytes>, written: set<nat>, file: Bytes, i: nat)
    ensures Overlay(base, written, file)[i := Slice(file, i)] == Overlay(base, written + {i}, file)
  {
  }

  function Staging(s: State, id: UploadId, written: set<nat>, file: Bytes): Disk
    requires id in s.disk.staging
  {
    s.disk.(staging := s.disk.staging[id := Overlay(s.disk.staging[id], written, file)])
  }

  lemma StagingOne(s: State, id: UploadId, written: set<nat>, file: Bytes, i: nat)
    requires id in s.disk.staging
    ensures WriteChunk(Staging(s, id, written, file), id, i, Slice(file, i)) == Staging(s, id, written + {i}, file)
  {
    OverlayOne(s.disk.staging[id], written, file, i);
  }

  lemma StagingNone(s: State, id: UploadId, file: Bytes)
    requires id in s.disk.staging
    ensures Staging(s, id, {}, file) == s.disk
  {
    assert Overlay(s.disk.staging[id], {}, file) == s.disk.staging[id];
  }

  predicate InRange(db: Db, id: UploadId, order: seq<nat>)
    requires id in db.uploads
  {
    forall i :: 0 <= i < |order| ==> order[i] < db.uploads[id].chunkCount
  }

  lemma SentOne(s: State, before: State, ctx: Ctx, id: UploadId, file: Bytes, sent: set<nat>, index: nat)
    requires id in s.disk.staging && before == s.(db := before.db, disk := Staging(s, id, sent, file))
    requires CheckChunk(before.db, ctx, id, index).Ok?
    ensures var after := ReplaceChunk(before, ctx, id, index, Slice(file, index)).0;
            after == s.(db := after.db, disk := Staging(s, id, sent + {index}, file))
  {
    StagingOne(s, id, sent, file, index);
  }

  lemma SentLast(s: State, ctx: Ctx, id: UploadId, file: Bytes, order: seq<nat>)
    requires Owns(s.db, ctx.tenant, id) && id in s.disk.staging && InRange(s.db, id, order) && order != []
    requires var before := SendChunks(s, ctx, id, file, order[..|order| - 1]);
             before == s.(db := before.db, disk := Staging(s, id, Elements(order[..|order| - 1]), file))
    ensures var s' := SendChunks(s, ctx, id, file, order);
            s' == s.(db := s'.db, disk := Staging(s, id, Elements(order), file))
  {
    var shorter, index := order[..|order| - 1], order[|order| - 1];
    SendingFrame(s, ctx, id, file, shorter);
    SentOne(s, SendChunks(s, ctx, id, file, shorter), ctx, id, file, Elements(shorter), index);
    assert Elements(order) == Elements(shorter) + {index};
  }

  /** What sending in some order leaves, in closed form. */
  lemma {:induction false} SentStaging(s: State, ctx: Ctx, id: UploadId, file: Bytes, order: seq<nat>)
    requires Owns(s.db, ctx.tenant, id) && id in s.disk.staging && InRange(s.db, id, order)
    ensures var s' := SendChunks(s, ctx, id, file, order);
            s' == s.(db := s'.db, disk := Staging(s, id, Elements(order), file))
    decreases |order|
  {
    if order == [] {
      StagingNone(s, id, file);
      assert Elements(order) == {};
    } else {
      SentStaging(s, ctx, id, file, order[..|order| - 1]);
      SentLast(s, ctx, id, file, order);
    }
  }

  /** Written, but not yet added. */
  function Waiting(ops: map<nat, Op>): set<nat> { set r | r in ops && ops[r].ChunkWritten? :: ops[r].index }

  predicate SendsOnly(ops: map<nat, Op>, ctx: Ctx, id: UploadId, file: Bytes, count: nat) {
    forall r :: r in ops ==> match ops[r]
      case ChunkRead(c, j, index, body) => c == ctx && j == id && index < count && body == Slice(file, index)
      case ChunkWritten(c, j, index) => c == ctx && j == id && index < count
      case _ => false
  }

  /** Part-way: the tables as after sending what has been added, the disk with what has been written besides. */
  ghost predicate Underway(s: State, mid: State, ctx: Ctx, id: UploadId, file: Bytes, order: seq<nat>)
    requires Owns(s.db, ctx.tenant, id) && id in s.disk.staging
  {
    && InRange(s.db, id, order)
    && SendsOnly(mid.ops, ctx, id, file, s.db.uploads[id].chunkCount)
    && mid == State(SendChunks(s, ctx, id, file, order).db, Staging(s, id, Elements(order) + Waiting(mid.ops), file), Idle, mid.ops, s.nextId)
  }

  lemma WriteKeeps(s: State, mid: State, ctx: Ctx, id: UploadId, file: Bytes, order: seq<nat>, r: nat)
    requires Owns(s.db, ctx.tenant, id) && id in s.disk.staging && Underway(s, mid, ctx, id, file, order)
    requires r in mid.ops && mid.ops[r].ChunkRead?
    ensures Underway(s, Proceed(mid, r), ctx, id, file, order)
  {
    var index := mid.ops[r].index;
    var ops' := Proceed(mid, r).ops;
    assert Waiting(ops') == Waiting(mid.ops) + {index} by {
      forall i | i in Waiting(mid.ops) ensures i in Waiting(ops') {
        var q :| q in mid.ops && mid.ops[q].ChunkWritten? && mid.ops[q].index == i;
        assert ops'[q] == mid.ops[q];
      }
      assert ops'[r].index == index;
    }
    StagingOne(s, id, Elements(order) + Waiting(mid.ops), file, index);
    assert Elements(order) + Waiting(mid.ops) + {index} == Elements(order) + Waiting(ops');
  }

  lemma AddKeeps(s: State, mid: State, ctx: Ctx, id: UploadId, file: Bytes, order: seq<nat>, r: nat)
    requires Owns(s.db, ctx.tenant, id) && id in s.disk.staging && Underway(s, mid, ctx, id, file, order)
    requires r in mid.ops && mid.ops[r].ChunkWritten?
    ensures Underway(s, Proceed(mid, r), ctx, id, file, order + [mid.ops[r].index])
  {
    var index := mid.ops[r].index;
    var ops' := Proceed(mid, r).ops;
    var more := order + [index];
    SentStaging(s, ctx, id, file, order);
    SendingFrame(s, ctx, id, file, order);
    assert more[..|more| - 1] == order;
    assert SendChunks(s, ctx, id, file, more).db == AddChunk(mid.db, ctx, id, index);
    assert Elements(more) == Elements(order) + {index};
    assert Elements(more) + Waiting(ops') == Elements(order) + Waiting(mid.ops) by {
      forall i | i in Waiting(mid.ops) ensures i in Elements(more) + Waiting(ops') {
        var q :| q in mid.ops && mid.ops[q].ChunkWritten? && mid.ops[q].index == i;
        if q != r { assert ops'[q] == mid.ops[q]; }
      }
      assert mid.ops[r].index in Waiting(mid.ops);
    }
  }

  lemma BeginKeeps(cfg: Config, s: State, mid: State, ctx: Ctx, id: UploadId, file: Bytes, order: seq<nat>, step: Step)
    requires Owns(s.db, ctx.tenant, id) && id in s.disk.staging && Underway(s, mid, ctx, id, file, order)
    requires step.ChunkStep? && SendsChunk(step, ctx, id, file)
    ensures Underway(s, Next(cfg, mid, step), ctx, id, file, order)
  {
    SendingFrame(s, ctx, id, file, order);
    assert Waiting(Next(cfg, mid, step).ops) == Waiting(mid.ops) by {
      var ops' := Next(cfg, mid, step).ops;
      forall i | i in Waiting(mid.ops) ensures i in Waiting(ops') {
        var q :| q in mid.ops && mid.ops[q].ChunkWritten? && mid.ops[q].index == i;
        assert ops'[q] == mid.ops[q];
      }
    }
  }

  lemma StepStaysUnderway(cfg: Config, s: State, mid: State, ctx: Ctx, id: UploadId, file: Bytes, order: seq<nat>, step: Step)
    requires Owns(s.db, ctx.tenant, id) && id in s.disk.staging && Underway(s, mid, ctx, id, file, order)
    requires SendsChunk(step, ctx, id, file)
    ensures Underway(s, Next(cfg, mid, step), ctx, id, file, order + Added(mid, step))
  {
    assert order + [] == order;
    if step.ChunkStep? {
      BeginKeeps(cfg, s, mid, ctx, id, file, order, step);
    } else if step.r in mid.ops {
      if mid.ops[step.r].ChunkRead? {
        WriteKeeps(s, mid, ctx, id, file, order, step.r);
      } else {
        AddKeeps(s, mid, ctx, id, file, order, step.r);
      }
    }
  }

  lemma LastStaysUnderway(cfg: Config, s: State, ctx: Ctx, id: UploadId, file: Bytes, steps: seq<Step>)
    requires Owns(s.db, ctx.tenant, id) && id in s.disk.staging && steps != []
    requires SendsChunk(steps[|steps| - 1], ctx, id, file)
    requires var before := steps[..|steps| - 1]; Underway(s, Run(cfg, s, before), ctx, id, file, AddOrder(cfg, s, before))
    ensures Underway(s, Run(cfg, s, steps), ctx, id, file, AddOrder(cfg, s, steps))
  {
    var n := |steps| - 1;
    RunNext(cfg, s, steps, n);
    assert steps[..n + 1] == steps;
    StepStaysUnderway(cfg, s, Run(cfg, s, steps[..n]), ctx, id, file, AddOrder(cfg, s, steps[..n]), steps[n]);
  }

  lemma {:induction false} StaysUnderway(cfg: Config, s: State, ctx: Ctx, id: UploadId, file: Bytes, steps: seq<Step>)
    requires Quiet(s) && Owns(s.db, ctx.tenant, id) && id in s.disk.staging
    requires forall k :: 0 <= k < |steps| ==> SendsChunk(steps[k], ctx, id, file)
    ensures Underway(s, Run(cfg, s, steps), ctx, id, file, AddOrder(cfg, s, steps))
    decreases |steps|
  {
    if steps == [] {
      StagingNone(s, id, file);
      assert Elements([]) + Waiting(s.ops) == {};
    } else {
      StaysUnderway(cfg, s, ctx, id, file, steps[..|steps| - 1]);
      LastStaysUnderway(cfg, s, ctx, id, file, steps);
    }
  }

  /**
   * However the requests that send chunks of one file overlap, once all are answered the server is
   * as if they had come one after another, in the order in which their chunks were added.
   */
  lemma OverlapIsSequence(cfg: Config, s: State, ctx: Ctx, id: UploadId, file: Bytes, steps: seq<Step>)
    requires Quiet(s) && Owns(s.db, ctx.tenant, id) && id in s.disk.staging
    requires forall k :: 0 <= k < |steps| ==> SendsChunk(steps[k], ctx, id, file)
    requires Quiet(Run(cfg, s, steps))
    ensures InRange(s.db, id, AddOrder(cfg, s, steps))
    ensures Run(cfg, s, steps) == SendChunks(s, ctx, id, file, AddOrder(cfg, s, steps))
  {
    StaysUnderway(cfg, s, ctx, id, file, steps);
    var order := AddOrder(cfg, s, steps);
    SentStaging(s, ctx, id, file, order);
    assert Elements(order) + Waiting(map[]) == Elements(order);
  }
}
