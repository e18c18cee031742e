/** The browser's upload pool: workers that share a counter and a list of errors. */
module WorkerPool {
  import opened Prelude
  import opened Chunks
  import opened Tables
  import opened Machine
  import opened Invariants
  import opened Safety
  import opened Service
  import opened Transfers

  datatype Worker =
      // about to take the next index
    | Ready
      // awaiting the transfer of this index
    | Working(index: nat)
    | Done

  /** `completed` and `errors` list the indices in the order in which their transfers settled. */
  datatype Pool = Pool(total: nat, next: nat, workers: seq<Worker>, completed: seq<nat>, errors: seq<nat>)

  datatype Event =
    | Claim(w: nat)
    | Settle(w: nat, ok: bool)

  function Start(total: nat, concurrency: nat): Pool {
    Pool(total, 0, seq(Min(concurrency, total), _ => Worker.Ready), [], [])
  }

  function Step(p: Pool, e: Event): Pool {
    if e.w >= |p.workers| then p
    else
      match e
      case Claim(w) =>
        if !p.workers[w].Ready? then p
        else
          p.(next := p.next + 1, workers := p.workers[w := if p.next >= p.total then Done else Working(p.next)])
      case Settle(w, ok) =>
        if !p.workers[w].Working? then p
        else if ok then
          p.(completed := p.completed + [p.workers[w].index], workers := p.workers[w := Worker.Ready])
        else
          p.(errors := p.errors + [p.workers[w].index], workers := p.workers[w := Done])
  }

  function Run(p: Pool, events: seq<Event>): Pool
    decreases |events|
  {
    if events == [] then p else Run(Step(p, events[0]), events[1..])
  }

  predicate Finished(p: Pool) { forall w :: 0 <= w < |p.workers| ==> p.workers[w].Done? }

  datatype Outcome = Pending | Resolved | Rejected(error: nat)

  /** `Promise.all(...).then(...)`. */
  function OutcomeOf(p: Pool): Outcome {
    if !Finished(p) then Pending else if p.errors != [] then Rejected(p.errors[0]) else Resolved
  }

  function InFlight(workers: seq<Worker>): set<nat> {
    set w | 0 <= w < |workers| && workers[w].Working? :: workers[w].index
  }

  predicate Settled(p: Pool, i: nat) { i in p.completed || i in p.errors }

  /** Every claimed index is in exactly one place. */
  ghost predicate PoolOk(p: Pool) {
    && (forall w :: 0 <= w < |p.workers| && p.workers[w].Working? ==>
          p.workers[w].index < p.next && p.workers[w].index < p.total && !Settled(p, p.workers[w].index))
    && (forall v, w :: 0 <= v < w < |p.workers| && p.workers[v].Working? && p.workers[w].Working? ==>
          p.workers[v].index != p.workers[w].index)
    && (forall i: nat :: Settled(p, i) ==> i < p.next && i < p.total)
    && NoDuplicates(p.completed + p.errors)
    && (forall i :: 0 <= i < p.next && i < p.total ==> Settled(p, i) || i in InFlight(p.workers))
    && (|p.errors| < DoneCount(p.workers) ==> p.next >= p.total)
  }

  function DoneCount(workers: seq<Worker>): nat {
    if workers == [] then 0 else DoneCount(workers[..|workers| - 1]) + if workers[|workers| - 1].Done? then 1 else 0
  }

  lemma {:induction false} DoneCountAt(workers: seq<Worker>, w: nat, to: Worker)
    requires w < |workers| && !workers[w].Done?
    ensures DoneCount(workers[w := to]) == DoneCount(workers) + if to.Done? then 1 else 0
  {
    var n := |workers| - 1;
    if w < n {
      DoneCountAt(workers[..n], w, to);
      assert workers[w := to][..n] == workers[..n][w := to];
    } else {
      assert workers[w := to][..n] == workers[..n];
    }
  }

  lemma {:induction false} AllDoneCount(workers: seq<Worker>)
    requires forall w :: 0 <= w < |workers| ==> workers[w].Done?
    ensures DoneCount(workers) == |workers|
  {
    if workers != [] { AllDoneCount(workers[..|workers| - 1]); }
  }

  lemma {:induction false} NoneDoneCount(workers: seq<Worker>)
    requires forall w :: 0 <= w < |workers| ==> !workers[w].Done?
    ensures DoneCount(workers) == 0
  {
    if workers != [] { NoneDoneCount(workers[..|workers| - 1]); }
  }

  lemma ClaimKeeps(p: Pool, w: nat)
    requires PoolOk(p) && w < |p.workers| && p.workers[w].Ready?
    ensures PoolOk(Step(p, Claim(w)))
  {
    var p' := Step(p, Claim(w));
    DoneCountAt(p.workers, w, p'.workers[w]);
    assert !Settled(p, p.next);
    forall i: nat ensures Settled(p', i) == Settled(p, i) { }
    assert forall v :: 0 <= v < |p.workers| && v != w ==> p'.workers[v] == p.workers[v];
    if p.next < p.total { assert p'.workers[w] == Working(p.next); }
    forall i: nat | i < p'.next && i < p'.total ensures Settled(p', i) || i in InFlight(p'.workers) {
      if i < p.next && i in InFlight(p.workers) {
        var v :| 0 <= v < |p.workers| && p.workers[v].Working? && p.workers[v].index == i;
        assert p'.workers[v].index == i;
      }
    }
  }

  lemma SettleKeeps(p: Pool, w: nat, ok: bool)
    requires PoolOk(p) && w < |p.workers| && p.workers[w].Working?
    ensures PoolOk(Step(p, Settle(w, ok)))
  {
    var p' := Step(p, Settle(w, ok));
    var index := p.workers[w].index;
    DoneCountAt(p.workers, w, p'.workers[w]);
    assert !Settled(p, index);
    forall i ensures Settled(p', i) <==> Settled(p, i) || i == index {
    }
    NoDuplicatesInsert(p.completed, p.errors, index);
    forall i | 0 <= i < p'.next && i < p'.total ensures Settled(p', i) || i in InFlight(p'.workers) {
      if i != index && i in InFlight(p.workers) {
        var v :| 0 <= v < |p.workers| && p.workers[v].Working? && p.workers[v].index == i;
        assert p'.workers[v] == p.workers[v];
      }
    }
  }

  lemma NoDuplicatesInsert(a: seq<nat>, b: seq<nat>, i: nat)
    requires NoDuplicates(a + b) && i !in a && i !in b
    ensures NoDuplicates(a + [i] + b) && NoDuplicates(a + (b + [i]))
  {
    forall j, k | 0 <= j < k < |a| + 1 + |b| ensures (a + [i] + b)[j] != (a + [i] + b)[k] {
      var j' := if j < |a| then j else j - 1;
      var k' := if k < |a| then k else k - 1;
      if j != |a| && k != |a| { assert (a + b)[j'] != (a + b)[k']; }
    }
    forall j, k | 0 <= j < k < |a| + |b| + 1 ensures (a + (b + [i]))[j] != (a + (b + [i]))[k] {
      if k < |a| + |b| { assert (a + b)[j] != (a + b)[k]; }
    }
  }

  lemma StartOk(total: nat, concurrency: nat)
    ensures PoolOk(Start(total, concurrency))
  {
    NoneDoneCount(Start(total, concurrency).workers);
  }

  lemma {:induction false} RunOk(p: Pool, events: seq<Event>)
    requires PoolOk(p)
    ensures PoolOk(Run(p, events))
    ensures Run(p, events).total == p.total && |Run(p, events).workers| == |p.workers|
    ensures p.errors <= Run(p, events).errors
    decreases |events|
  {
    if events != [] {
      var e := events[0];
      if e.w < |p.workers| {
        if e.Claim? && p.workers[e.w].Ready? { ClaimKeeps(p, e.w); }
        if e.Settle? && p.workers[e.w].Working? { SettleKeeps(p, e.w, e.ok); }
      }
      RunOk(Step(p, e), events[1..]);
    }
  }

  /** At most min(concurrency, total) transfers are under way, all of different indices, none settled before. */
  lemma PoolIsBounded(total: nat, concurrency: nat, events: seq<Event>)
    ensures var p := Run(Start(total, concurrency), events);
            && |InFlight(p.workers)| <= Min(concurrency, total)
            && NoDuplicates(p.completed + p.errors)
            && forall i :: i in InFlight(p.workers) ==> i < total && !Settled(p, i)
  {
    StartOk(total, concurrency);
    RunOk(Start(total, concurrency), events);
    InFlightSize(Run(Start(total, concurrency), events).workers);
  }

  lemma {:induction false} InFlightSize(workers: seq<Worker>)
    ensures |InFlight(workers)| <= |workers|
  {
    if workers == [] {
      assert InFlight(workers) == {};
    } else {
      var n := |workers| - 1;
      InFlightSize(workers[..n]);
      var last := if workers[n].Working? then {workers[n].index} else {};
      forall i | i in InFlight(workers) ensures i in InFlight(workers[..n]) + last {
        var w :| 0 <= w < |workers| && workers[w].Working? && workers[w].index == i;
        if w < n { assert workers[..n][w] == workers[w]; }
      }
      SubsetSize(InFlight(workers), InFlight(workers[..n]) + last);
    }
  }

  /**
   * A pool that resolves has transferred every index exactly once if and only if it had a worker,
   * or nothing to do; one with any failure rejects with the first recorded error.
   */
  lemma PoolOutcome(total: nat, concurrency: nat, events: seq<Event>)
    ensures var p := Run(Start(total, concurrency), events);
            && (OutcomeOf(p).Resolved? ==>
                  (NoDuplicates(p.completed) && Elements(p.completed) == Below(total) <==> concurrency > 0 || total == 0))
            && (Finished(p) && p.errors != [] ==> OutcomeOf(p) == Rejected(p.errors[0]))
            && (Finished(p) && p.errors == [] ==> OutcomeOf(p) == Resolved)
            && (OutcomeOf(p).Pending? <==> exists w :: 0 <= w < |p.workers| && !p.workers[w].Done?)
  {
    StartOk(total, concurrency);
    RunOk(Start(total, concurrency), events);
    BelowCount(total);
    var p := Run(Start(total, concurrency), events);
    if OutcomeOf(p).Resolved? {
      assert p.completed + p.errors == p.completed;
      if concurrency > 0 || total == 0 {
        AllSettled(p);
        forall i ensures i in Elements(p.completed) <==> i in Below(total) {
          assert Settled(p, i) <==> i in p.completed;
        }
      } else {
        NoWorkers(Start(total, 0), events);
        assert 0 in Below(total);
      }
    }
  }

  lemma {:induction false} NoWorkers(p: Pool, events: seq<Event>)
    requires p.workers == []
    ensures Run(p, events) == p
    decreases |events|
  {
    if events != [] { NoWorkers(p, events[1..]); }
  }

  /** While some worker survived, every index was tried, failures or not. */
  lemma AllSettled(p: Pool)
    requires PoolOk(p) && Finished(p) && (|p.errors| < |p.workers| || p.total == 0)
    ensures forall i :: 0 <= i < p.total ==> Settled(p, i)
  {
    AllDoneCount(p.workers);
    assert InFlight(p.workers) == {};
  }

  lemma {:induction false} DoneStays(p: Pool, w: nat, later: seq<Event>)
    requires w < |p.workers| && p.workers[w].Done?
    ensures w < |Run(p, later).workers| && Run(p, later).workers[w].Done?
    decreases |later|
  {
    if later != [] { DoneStays(Step(p, later[0]), w, later[1..]); }
  }

  /** A worker whose transfer failed takes no more, its error is recorded last, and the others go on. */
  lemma FailedWorkerStops(p: Pool, w: nat, later: seq<Event>)
    requires w < |p.workers| && p.workers[w].Working?
    ensures var failed := Step(p, Settle(w, false));
            && failed.errors == p.errors + [p.workers[w].index] && failed.completed == p.completed && failed.next == p.next
            && (forall v :: 0 <= v < |p.workers| && v != w ==> failed.workers[v] == p.workers[v])
            && w < |Run(failed, later).workers| && Run(failed, later).workers[w].Done?
  {
    DoneStays(Step(p, Settle(w, false)), w, later);
  }

  /** The first error recorded stays the first. */
  lemma FirstErrorStays(total: nat, concurrency: nat, events: seq<Event>, later: seq<Event>)
    ensures var p := Run(Start(total, concurrency), events);
            p.errors != [] ==> Run(p, later).errors != [] && Run(p, later).errors[0] == p.errors[0]
  {
    StartOk(total, concurrency);
    RunOk(Start(total, concurrency), events);
    RunOk(Run(Start(total, concurrency), events), later);
  }

  // ---- uploading with it ----

  /** `file.slice(start, end)` in `uploadFile`. */
  function BrowserSlice(file: Bytes, i: nat): Bytes
    requires i * CHUNK_SIZE <= |file|
  {
    var start := i * CHUNK_SIZE;
    file[start..Min(start + CHUNK_SIZE, |file|)]
  }

  /** At least one chunk, also for an empty file. */
  function BrowserChunkCount(size: nat): nat { if ChunkCount(size) > 1 then ChunkCount(size) else 1 }

  lemma BrowserSlicesAgree(file: Bytes, i: nat)
    requires i < BrowserChunkCount(|file|)
    ensures i * CHUNK_SIZE <= |file| && BrowserSlice(file, i) == Slice(file, i)
  {
    if i > 0 {
      ChunkCountCovers(file);
      assert (ChunkCount(|file|) - 1) * CHUNK_SIZE < |file|;
      assert i * CHUNK_SIZE <= (ChunkCount(|file|) - 1) * CHUNK_SIZE;
    }
  }

  /** What the server does for a pool's transfers: the steps of sending these chunks, all answered in the end. */
  ghost predicate Carries(cfg: Config, s: State, ctx: Ctx, id: UploadId, file: Bytes, steps: seq<Machine.Step>, completed: seq<nat>) {
    && (forall k :: 0 <= k < |steps| ==> SendsChunk(steps[k], ctx, id, file))
    && Quiet(Machine.Run(cfg, s, steps))
    && Elements(AddOrder(cfg, s, steps)) == Elements(completed)
  }

  /**
   * A browser upload whose pool resolves is a create of the file, however its transfers overlapped
   * in the browser and step by step on the server.
   */
  lemma BrowserUploadIsCreate(cfg: Config, s: State, ctx: Ctx, path: Path, file: Bytes, concurrency: nat,
                              events: seq<Event>, steps: seq<Machine.Step>)
    requires Inv(cfg, s) && Quiet(s) && NoCollision(cfg, s.disk, ctx.tenant, file) && concurrency > 0
    requires OutcomeOf(Run(Start(BrowserChunkCount(|file|), concurrency), events)).Resolved?
    ensures var count := BrowserChunkCount(|file|);
            var completed := Run(Start(count, concurrency), events).completed;
            var session := CreateUpload(cfg, s, ctx, RequestFor(cfg, path, file, count));
            var direct := CreateFile(cfg, s, ctx, path, file);
            && (session.1.Ok? <==> direct.1.Ok?)
            && (session.1.Ok? && Carries(cfg, session.0, ctx, session.1.value, file, steps, completed) ==>
                  FinalizeUpload(cfg, Machine.Run(cfg, session.0, steps), ctx, session.1.value)
                  == (direct.0.(nextId := s.nextId + 1), direct.1))
  {
    var count := BrowserChunkCount(|file|);
    var completed := Run(Start(count, concurrency), events).completed;
    AllCompleted(count, concurrency, events);
    CoversAll(completed, completed, count);
    var session := CreateUpload(cfg, s, ctx, RequestFor(cfg, path, file, count));
    ChunkedEqualsDirect(cfg, s, ctx, path, file, count, completed);
    if session.1.Ok? && Carries(cfg, session.0, ctx, session.1.value, file, steps, completed) {
      FreshUpload(cfg, s, ctx, RequestFor(cfg, path, file, count));
      OverlapIsSequence(cfg, session.0, ctx, session.1.value, file, steps);
      CoversAll(completed, AddOrder(cfg, session.0, steps), count);
      ChunkedEqualsDirect(cfg, s, ctx, path, file, count, AddOrder(cfg, session.0, steps));
    }
  }

  lemma AllCompleted(total: nat, concurrency: nat, events: seq<Event>)
    requires concurrency > 0 && OutcomeOf(Run(Start(total, concurrency), events)).Resolved?
    ensures Elements(Run(Start(total, concurrency), events).completed) == Below(total)
  {
    PoolOutcome(total, concurrency, events);
  }

  lemma CoversAll(completed: seq<nat>, order: seq<nat>, count: nat)
    requires Elements(completed) == Below(count) && Elements(order) == Elements(completed)
    ensures Covers([], order, count)
  {
    BelowCount(count);
    forall i | 0 <= i < count ensures i in order {
      assert i in Below(count);
      assert i in Elements(order);
    }
    forall k | 0 <= k < |order| ensures order[k] < count {
      assert order[k] in Elements(order);
    }
  }
}
