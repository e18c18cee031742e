/** A delete reads in one transaction and writes in another; what a put in between costs. */
module Deletes {
  import opened Prelude
  import opened Tables
  import opened Machine
  import opened Service

  /** Rows stay, and their versions never go back. */
  ghost predicate RowsAdvance(files: map<string, FileMeta>, files': map<string, FileMeta>) {
    forall key :: key in files ==> key in files' && files[key].version <= files'[key].version
  }

  /** Request `r` is a delete about to write back a row older than the one it replaces. */
  predicate Stale(s: State, r: nat) {
    && r in s.ops && s.ops[r].Deleting? && s.txn.Idle?
    && s.ops[r].key in s.db.files
    && s.ops[r].meta.version < s.db.files[s.ops[r].key].version
  }

  predicate StaleWrite(s: State, step: Step) { step.ProceedStep? && Stale(s, step.r) }

  /** A commit that puts a new version in a key's row. */
  predicate Puts(s: State, step: Step, key: string) {
    && step.CommitStep? && step.r !in s.ops && s.txn.Ready?
    && key in s.db.files && key in s.txn.tables.files
    && s.db.files[key].version < s.txn.tables.files[key].version
  }

  /** An open transaction leaves each row or puts its next version. */
  ghost predicate OpenPuts(s: State) {
    s.txn.Ready? ==> forall key :: key in s.db.files ==>
      && key in s.txn.tables.files
      && (s.txn.tables.files[key] == s.db.files[key] || s.txn.tables.files[key].version == s.db.files[key].version + 1)
  }

  function Deleted(meta: FileMeta): FileMeta { meta.(isDeleted := true) }

  /** What a half-done delete read was this row, or an earlier version of it. */
  ghost predicate ReadsOk(s: State) {
    forall r :: r in s.ops && s.ops[r].Deleting? ==>
      var Deleting(_, key, meta) := s.ops[r];
      && key in s.db.files && meta.version <= s.db.files[key].version
      && (meta.version == s.db.files[key].version ==> meta == Deleted(s.db.files[key]))
  }

  lemma StepKeepsOpen(cfg: Config, s: State, step: Step)
    requires OpenPuts(s)
    ensures OpenPuts(Next(cfg, s, step))
  {
  }

  /** Versions move forward at every step but the write of a stale delete, and there they go back. */
  lemma StepAdvancesIff(cfg: Config, s: State, step: Step)
    requires OpenPuts(s)
    ensures RowsAdvance(s.db.files, Next(cfg, s, step).db.files) <==> !StaleWrite(s, step)
  {
    if StaleWrite(s, step) {
      var s' := Next(cfg, s, step);
      var op := s.ops[step.r];
      assert s'.db.files[op.key].version < s.db.files[op.key].version;
    }
  }

  /** The state after the first `k` steps from an empty server. */
  ghost function At(cfg: Config, steps: seq<Step>, k: nat): State
    requires k <= |steps|
  {
    Run(cfg, Init(), steps[..k])
  }

  lemma {:induction false} OpenPutsAt(cfg: Config, steps: seq<Step>, k: nat)
    requires k <= |steps|
    ensures OpenPuts(At(cfg, steps, k))
  {
    if k > 0 {
      OpenPutsAt(cfg, steps, k - 1);
      RunNext(cfg, Init(), steps, k - 1);
      StepKeepsOpen(cfg, At(cfg, steps, k - 1), steps[k - 1]);
    }
  }

  lemma AdvancesAtIff(cfg: Config, steps: seq<Step>, k: nat)
    requires k < |steps|
    ensures RowsAdvance(At(cfg, steps, k).db.files, At(cfg, steps, k + 1).db.files) <==> !StaleWrite(At(cfg, steps, k), steps[k])
  {
    OpenPutsAt(cfg, steps, k);
    RunNext(cfg, Init(), steps, k);
    StepAdvancesIff(cfg, At(cfg, steps, k), steps[k]);
  }

  lemma AdvanceOn(a: map<string, FileMeta>, b: map<string, FileMeta>, c: map<string, FileMeta>)
    requires RowsAdvance(a, b) && RowsAdvance(b, c)
    ensures RowsAdvance(a, c)
  {
  }

  lemma {:induction false} AdvancesBetween(cfg: Config, steps: seq<Step>, i: nat, j: nat)
    requires i <= j <= |steps|
    requires forall k :: 0 <= k < |steps| ==> !StaleWrite(At(cfg, steps, k), steps[k])
    ensures RowsAdvance(At(cfg, steps, i).db.files, At(cfg, steps, j).db.files)
    decreases j
  {
    if i < j {
      AdvancesBetween(cfg, steps, i, j - 1);
      AdvancesAtIff(cfg, steps, j - 1);
      AdvanceOn(At(cfg, steps, i).db.files, At(cfg, steps, j - 1).db.files, At(cfg, steps, j).db.files);
    }
  }

  /**
   * Over every run from an empty server: between any two of its states no row vanishes and no
   * version goes back, if and only if no delete in it writes back a row that is out of date.
   */
  lemma VersionsAdvanceIff(cfg: Config, steps: seq<Step>)
    ensures (forall i, j :: 0 <= i <= j <= |steps| ==> RowsAdvance(At(cfg, steps, i).db.files, At(cfg, steps, j).db.files))
            <==> (forall k :: 0 <= k < |steps| ==> !StaleWrite(At(cfg, steps, k), steps[k]))
  {
    if forall k :: 0 <= k < |steps| ==> !StaleWrite(At(cfg, steps, k), steps[k]) {
      forall i, j | 0 <= i <= j <= |steps| ensures RowsAdvance(At(cfg, steps, i).db.files, At(cfg, steps, j).db.files) {
        AdvancesBetween(cfg, steps, i, j);
      }
    } else {
      var k :| 0 <= k < |steps| && StaleWrite(At(cfg, steps, k), steps[k]);
      AdvancesAtIff(cfg, steps, k);
      assert !RowsAdvance(At(cfg, steps, k).db.files, At(cfg, steps, k + 1).db.files);
    }
  }

  // ---- what makes a delete stale ----

  ghost predicate NoStaleWrites(cfg: Config, s: State, steps: seq<Step>) {
    forall k :: 0 <= k < |steps| ==> !StaleWrite(Run(cfg, s, steps[..k]), steps[k])
  }

  ghost predicate PutAmong(cfg: Config, s: State, steps: seq<Step>, key: string) {
    exists k :: 0 <= k < |steps| && Puts(Run(cfg, s, steps[..k]), steps[k], key)
  }

  /** One step that is no stale write: a row gets a new version exactly by a put, or else at most its mark. */
  lemma RowStep(cfg: Config, s: State, step: Step, key: string)
    requires OpenPuts(s) && ReadsOk(s) && key in s.db.files && !StaleWrite(s, step)
    ensures var s' := Next(cfg, s, step);
            && key in s'.db.files && s.db.files[key].version <= s'.db.files[key].version
            && (s.db.files[key].version < s'.db.files[key].version <==> Puts(s, step, key))
            && (s.db.files[key].version == s'.db.files[key].version ==> Deleted(s'.db.files[key]) == Deleted(s.db.files[key]))
  {
  }

  lemma StepKeepsReads(cfg: Config, s: State, step: Step)
    requires OpenPuts(s) && ReadsOk(s) && !StaleWrite(s, step)
    ensures ReadsOk(Next(cfg, s, step))
  {
    var s' := Next(cfg, s, step);
    forall r | r in s'.ops && s'.ops[r].Deleting?
      ensures var Deleting(_, key, meta) := s'.ops[r];
              && key in s'.db.files && meta.version <= s'.db.files[key].version
              && (meta.version == s'.db.files[key].version ==> meta == Deleted(s'.db.files[key]))
    {
      if r in s.ops && s.ops[r] == s'.ops[r] { RowStep(cfg, s, step, s.ops[r].key); }
    }
  }

  lemma LastRowStep(cfg: Config, s: State, steps: seq<Step>, key: string)
    requires steps != []
    requires var mid := Run(cfg, s, steps[..|steps| - 1]);
             OpenPuts(mid) && ReadsOk(mid) && key in mid.db.files && !StaleWrite(mid, steps[|steps| - 1])
    ensures var mid, s' := Run(cfg, s, steps[..|steps| - 1]), Run(cfg, s, steps);
            && OpenPuts(s') && ReadsOk(s')
            && key in s'.db.files && mid.db.files[key].version <= s'.db.files[key].version
            && (mid.db.files[key].version < s'.db.files[key].version <==> Puts(mid, steps[|steps| - 1], key))
            && (mid.db.files[key].version == s'.db.files[key].version ==> Deleted(s'.db.files[key]) == Deleted(mid.db.files[key]))
  {
    var n := |steps| - 1;
    var mid := Run(cfg, s, steps[..n]);
    RunNext(cfg, s, steps, n);
    assert steps[..n + 1] == steps;
    RowStep(cfg, mid, steps[n], key);
    StepKeepsOpen(cfg, mid, steps[n]);
    StepKeepsReads(cfg, mid, steps[n]);
  }

  /** The same over a run. */
  lemma {:induction false} RowSince(cfg: Config, s: State, steps: seq<Step>, key: string)
    requires OpenPuts(s) && ReadsOk(s) && key in s.db.files && NoStaleWrites(cfg, s, steps)
    ensures var s' := Run(cfg, s, steps);
            && OpenPuts(s') && ReadsOk(s')
            && key in s'.db.files && s.db.files[key].version <= s'.db.files[key].version
            && (s.db.files[key].version < s'.db.files[key].version <==> PutAmong(cfg, s, steps, key))
            && (s.db.files[key].version == s'.db.files[key].version ==> Deleted(s'.db.files[key]) == Deleted(s.db.files[key]))
    decreases |steps|
  {
    if steps != [] {
      var n := |steps| - 1;
      var shorter := steps[..n];
      assert forall k :: 0 <= k <= n ==> shorter[..k] == steps[..k];
      RowSince(cfg, s, shorter, key);
      LastRowStep(cfg, s, steps, key);
      assert PutAmong(cfg, s, steps, key) <==> PutAmong(cfg, s, shorter, key) || Puts(Run(cfg, s, shorter), steps[n], key);
    }
  }

  lemma {:induction false} KeepsReads(cfg: Config, s: State, steps: seq<Step>)
    requires OpenPuts(s) && ReadsOk(s) && NoStaleWrites(cfg, s, steps)
    ensures OpenPuts(Run(cfg, s, steps)) && ReadsOk(Run(cfg, s, steps))
    decreases |steps|
  {
    if steps != [] {
      var n := |steps| - 1;
      var shorter := steps[..n];
      assert forall k :: 0 <= k <= n ==> shorter[..k] == steps[..k];
      KeepsReads(cfg, s, shorter);
      RunNext(cfg, s, steps, n);
      assert steps[..n + 1] == steps;
      StepKeepsOpen(cfg, Run(cfg, s, shorter), steps[n]);
      StepKeepsReads(cfg, Run(cfg, s, shorter), steps[n]);
    }
  }

  /** Nothing but its own next step, or a crash, ends a half-done request. */
  lemma {:induction false} StillWaiting(cfg: Config, s: State, steps: seq<Step>, r: nat)
    requires r in s.ops && forall k :: 0 <= k < |steps| ==> steps[k] != ProceedStep(r) && !steps[k].CrashStep?
    ensures r in Run(cfg, s, steps).ops && Run(cfg, s, steps).ops[r] == s.ops[r]
    decreases |steps|
  {
    if steps != [] {
      assert r in Next(cfg, s, steps[0]).ops && Next(cfg, s, steps[0]).ops[r] == s.ops[r];
      StillWaiting(cfg, Next(cfg, s, steps[0]), steps[1..], r);
    }
  }

  /** Writing back is deleting, exactly when what was read is not out of date. */
  lemma WriteBackIff(cfg: Config, s: State, r: nat)
    requires ReadsOk(s) && s.txn.Idle? && r in s.ops && s.ops[r].Deleting?
    ensures Next(cfg, s, ProceedStep(r)).db.files == MarkDeleted(s.db.files, s.ops[r].key) <==> !Stale(s, r)
  {
    var Deleting(_, key, meta) := s.ops[r];
    assert s.db.files[key := meta][key] == meta;
  }

  /** The read of a delete. */
  lemma ReadStep(cfg: Config, s: State, r: nat, ctx: Ctx, path: Path)
    requires OpenPuts(s) && ReadsOk(s)
    requires ctx.tenant in s.db.tenants && r !in s.ops && MakeKey(ctx.tenant, path) in s.db.files
    ensures var key := MakeKey(ctx.tenant, path);
            var reading := Next(cfg, s, DeleteStep(r, ctx, path));
            && OpenPuts(reading) && ReadsOk(reading) && reading.db == s.db
            && r in reading.ops && reading.ops[r] == Deleting(ctx.tenant, key, Deleted(s.db.files[key]))
  {
    StepKeepsReads(cfg, s, DeleteStep(r, ctx, path));
  }

  /**
   * A delete's write is stale exactly when a commit has put a new version in the row since the
   * read; and exactly when none has, the write does what deleting in one step would do.
   */
  lemma StaleIffPutSince(cfg: Config, before: seq<Step>, r: nat, ctx: Ctx, path: Path, after: seq<Step>)
    requires NoStaleWrites(cfg, Init(), before)
    requires var s := Run(cfg, Init(), before);
             ctx.tenant in s.db.tenants && r !in s.ops && MakeKey(ctx.tenant, path) in s.db.files
    requires var reading := Next(cfg, Run(cfg, Init(), before), DeleteStep(r, ctx, path));
             NoStaleWrites(cfg, reading, after) && Run(cfg, reading, after).txn.Idle?
    requires forall k :: 0 <= k < |after| ==> after[k] != ProceedStep(r) && !after[k].CrashStep?
    ensures var key := MakeKey(ctx.tenant, path);
            var reading := Next(cfg, Run(cfg, Init(), before), DeleteStep(r, ctx, path));
            var s := Run(cfg, reading, after);
            && (Stale(s, r) <==> PutAmong(cfg, reading, after, key))
            && (Next(cfg, s, ProceedStep(r)).db.files == MarkDeleted(s.db.files, key) <==> !PutAmong(cfg, reading, after, key))
  {
    var key := MakeKey(ctx.tenant, path);
    var s0 := Run(cfg, Init(), before);
    KeepsReads(cfg, Init(), before);
    var reading := Next(cfg, s0, DeleteStep(r, ctx, path));
    ReadStep(cfg, s0, r, ctx, path);
    var s := Run(cfg, reading, after);
    StillWaiting(cfg, reading, after, r);
    RowSince(cfg, reading, after, key);
    WriteBackIff(cfg, s, r);
  }

  /** A put between the two halves of a delete is lost: its version and its content both. */
  lemma DeleteUndoesPut(cfg: Config, s: State, ctx: Ctx, path: Path, content: Bytes)
    requires Quiet(s) && ctx.tenant in s.db.tenants && MakeKey(ctx.tenant, path) in s.db.files
    requires StageCreate(cfg, ctx, s.db, s.disk, path, content).Ok?
    ensures var key := MakeKey(ctx.tenant, path);
            var begun := Next(cfg, s, DeleteStep(0, ctx, path));
            var put := Next(cfg, Next(cfg, begun, CreateStep(ctx, path, content)), CommitStep(1));
            && put.db.files[key].version == s.db.files[key].version + 1
            && Next(cfg, put, ProceedStep(0)).db.files[key] == s.db.files[key].(isDeleted := true)
  {
  }
}
