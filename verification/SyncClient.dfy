/** The client as the source has it: methods over a local tree and a record table. */
module SyncClientClass {
  import opened Prelude
  import opened Sums
  import opened Chunks
  import opened Tables
  import opened Machine
  import opened Invariants
  import opened Safety
  import opened Service
  import opened ServerClass
  import opened Api
  import opened ClientModel
  import opened SyncRuns
  import opened PushModel
  import opened PullModel
  import opened Resume
  import opened Acceptance

  function Indices(batch: seq<(nat, Bytes)>): seq<nat> { seq(|batch|, k requires 0 <= k < |batch| => batch[k].0) }

  /** A batch of chunks of `file`, no chunk twice, with numbers that survive the trip over the wire. */
  ghost predicate ChunkBatch(file: Bytes, batch: seq<(nat, Bytes)>) {
    && NoDuplicates(Indices(batch))
    && forall k :: 0 <= k < |batch| ==> batch[k].0 < 0x1_0000_0000 && batch[k].1 == Slice(file, batch[k].0)
  }

  /** A pending upload the client would resume was opened for the file as it is now. */
  predicate ResumeFits(cfg: Config, db: Db, ctx: Ctx, c: Client, path: Path) {
    path in c.fs && Pending(db, ctx, c, path) ==>
      var upload := db.uploads[c.records[path].uploadId.value];
      && upload.path == path && upload.totalHash == cfg.hash(c.fs[path]) && upload.totalSize == |c.fs[path]|
  }

  predicate AllOk(results: map<nat, Result<()>>) { forall k :: k in results ==> results[k].Ok? }

  lemma AllOkWith(results: map<nat, Result<()>>, k: nat, r: Result<()>)
    requires k !in results
    ensures AllOk(results[k := r]) <==> AllOk(results) && r.Ok?
  {
    if AllOk(results[k := r]) {
      assert results[k := r][k] == r;
      assert forall j :: j in results ==> results[k := r][j] == results[j];
    }
  }

  /** The chunk numbers at some positions of a batch. */
  function Picked(batch: seq<(nat, Bytes)>, positions: set<nat>): set<nat> {
    set k | k in positions && k < |batch| :: batch[k].0
  }

  lemma PickOne(file: Bytes, batch: seq<(nat, Bytes)>, positions: set<nat>, k: nat)
    requires ChunkBatch(file, batch) && k < |batch| && k !in positions
    ensures batch[k].0 !in Picked(batch, positions)
    ensures Picked(batch, positions + {k}) == Picked(batch, positions) + {batch[k].0}
  {
    assert forall j :: 0 <= j < |batch| ==> Indices(batch)[j] == batch[j].0;
  }

  lemma AllPicked(batch: seq<(nat, Bytes)>)
    ensures Picked(batch, Below(|batch|)) == Elements(Indices(batch))
  {
    BelowCount(|batch|);
    forall i ensures i in Picked(batch, Below(|batch|)) <==> i in Elements(Indices(batch)) {
      if i in Elements(Indices(batch)) {
        var k :| 0 <= k < |batch| && Indices(batch)[k] == i;
        assert k in Below(|batch|);
      }
      if i in Picked(batch, Below(|batch|)) {
        var k :| k in Below(|batch|) && k < |batch| && batch[k].0 == i;
        assert Indices(batch)[k] == i;
      }
    }
  }

  lemma OneChunk(s: State, ctx: Ctx, id: UploadId, file: Bytes, i: nat)
    ensures SendChunks(s, ctx, id, file, []) == s
    ensures SendChunks(s, ctx, id, file, [i]) == ReplaceChunk(s, ctx, id, i, Slice(file, i)).0
  {
    assert [i][..0] == [];
  }

  /** The server has this upload open for so many chunks. */
  predicate TakesChunks(s: State, ctx: Ctx, id: UploadId, count: nat) {
    Owns(s.db, ctx.tenant, id) && id in s.disk.staging && count <= s.db.uploads[id].chunkCount
  }

  predicate TakesBatch(s: State, ctx: Ctx, id: UploadId, batch: seq<(nat, Bytes)>) {
    && Owns(s.db, ctx.tenant, id) && id in s.disk.staging
    && forall k :: 0 <= k < |batch| ==> batch[k].0 < s.db.uploads[id].chunkCount
  }

  lemma TakesOne(s: State, ctx: Ctx, id: UploadId, batch: seq<(nat, Bytes)>, file: Bytes, k: nat, arrived: seq<nat>)
    requires k < |batch| && (arrived == [] || arrived == [batch[k].0])
    ensures TakesBatch(s, ctx, id, batch) ==>
              && ReplaceChunk(s, ctx, id, batch[k].0, Slice(file, batch[k].0)).1.Ok?
              && TakesBatch(SendChunks(s, ctx, id, file, arrived), ctx, id, batch)
  {
    OneChunk(s, ctx, id, file, batch[k].0);
  }

  lemma {:induction false} StillTakes(s: State, ctx: Ctx, id: UploadId, count: nat, file: Bytes, order: seq<nat>)
    requires TakesChunks(s, ctx, id, count)
    ensures TakesChunks(SendChunks(s, ctx, id, file, order), ctx, id, count)
    decreases |order|
  {
    if order != [] { StillTakes(s, ctx, id, count, file, order[..|order| - 1]); }
  }

  /** The calls that send these chunks. */
  function Calls(id: UploadId, order: seq<nat>): seq<(UploadId, nat)> { seq(|order|, k requires 0 <= k < |order| => (id, order[k])) }

  lemma CallsFirst(calls: seq<(UploadId, nat)>, id: UploadId, i: nat, order: seq<nat>)
    ensures calls + [(id, i)] + Calls(id, order) == calls + Calls(id, [i] + order)
  {
    assert Calls(id, [i] + order) == [(id, i)] + Calls(id, order);
  }

  lemma CallsAppend(calls: seq<(UploadId, nat)>, id: UploadId, a: seq<nat>, b: seq<nat>)
    ensures calls + Calls(id, a) + Calls(id, b) == calls + Calls(id, a + b)
  {
    assert Calls(id, a + b) == Calls(id, a) + Calls(id, b);
  }

  /** Of the wanted chunks below `idx`, each is sent or in the batch, once. */
  ghost predicate SentSoFar(file: Bytes, received: seq<nat>, idx: nat, sent: seq<nat>, batch: seq<(nat, Bytes)>) {
    && ChunkBatch(file, batch) && (forall k :: 0 <= k < |batch| ==> batch[k].0 < idx)
    && NoDuplicates(sent) && Elements(sent) !! Elements(Indices(batch))
    && Elements(sent) + Elements(Indices(batch)) == Wanted(received, idx)
  }

  lemma Skipped(file: Bytes, received: seq<nat>, idx: nat, sent: seq<nat>, batch: seq<(nat, Bytes)>)
    requires SentSoFar(file, received, idx, sent, batch) && idx in received
    ensures SentSoFar(file, received, idx + 1, sent, batch)
  {
    assert Wanted(received, idx + 1) == Wanted(received, idx);
  }

  lemma Grown(file: Bytes, received: seq<nat>, idx: nat, sent: seq<nat>, batch: seq<(nat, Bytes)>, buf: Bytes)
    requires SentSoFar(file, received, idx, sent, batch) && idx !in received && idx < 0x1_0000_0000 && buf == Slice(file, idx)
    ensures SentSoFar(file, received, idx + 1, sent, batch + [(idx, buf)])
  {
    assert Wanted(received, idx + 1) == Wanted(received, idx) + {idx};
    assert Indices(batch + [(idx, buf)]) == Indices(batch) + [idx];
    assert Elements(Indices(batch) + [idx]) == Elements(Indices(batch)) + {idx};
    assert idx !in Wanted(received, idx);
  }

  lemma Flushed(file: Bytes, received: seq<nat>, idx: nat, sent: seq<nat>, batch: seq<(nat, Bytes)>, order: seq<nat>)
    requires SentSoFar(file, received, idx, sent, batch)
    requires NoDuplicates(order) && Elements(order) == Elements(Indices(batch))
    ensures SentSoFar(file, received, idx, sent + order, [])
  {
    assert Elements(sent + order) == Elements(sent) + Elements(order);
    assert Elements(Indices([])) == {};
    forall i, j | 0 <= i < j < |sent + order| ensures (sent + order)[i] != (sent + order)[j] {
      if i < |sent| <= j {
        assert sent[i] in Elements(sent) && order[j - |sent|] in Elements(order);
      }
    }
  }

  /** One more chunk of a batch, sent before the others. */
  lemma SentFirst(file: Bytes, batch: seq<(nat, Bytes)>, positions: set<nat>, k: nat, sent: Result<()>,
                  rest: map<nat, Result<()>>, order: seq<nat>)
    requires ChunkBatch(file, batch) && k in positions && k < |batch| && rest.Keys == positions - {k}
    requires NoDuplicates(order) && Elements(order) == Picked(batch, positions - {k})
    ensures var results := rest[k := sent];
            results.Keys == positions && (AllOk(results) <==> AllOk(rest) && sent.Ok?)
    ensures NoDuplicates([batch[k].0] + order) && Elements([batch[k].0] + order) == Picked(batch, positions)
  {
    PickOne(file, batch, positions - {k}, k);
    assert positions - {k} + {k} == positions;
    AllOkWith(rest, k, sent);
    assert Elements([batch[k].0] + order) == Elements(order) + {batch[k].0};
  }

  method FirstError(results: map<nat, Result<()>>, n: nat) returns (r: Result<()>)
    requires results.Keys == Below(n)
    ensures r.Ok? <==> AllOk(results)
    ensures r.Err? ==> exists k :: k in results && results[k] == r && forall j :: 0 <= j < k ==> j in results && results[j].Ok?
  {
    BelowCount(n);
    for k := 0 to n
      invariant forall j :: 0 <= j < k ==> results[j].Ok?
    {
      if results[k].Err? { return results[k]; }
    }
    return Ok(());
  }

  predicate NonePending(db: Db, ctx: Ctx, c: Client, paths: seq<Path>) {
    forall p :: p in paths ==> !Pending(db, ctx, c, p)
  }

  /** Paths whose pending upload was opened for something else. */
  function Misfits(cfg: Config, db: Db, ctx: Ctx, c: Client, paths: seq<Path>): set<Path> {
    set p | p in paths && !ResumeFits(cfg, db, ctx, c, p)
  }

  predicate FitsAll(cfg: Config, db: Db, ctx: Ctx, c: Client, paths: seq<Path>) { Misfits(cfg, db, ctx, c, paths) == {} }

  lemma FitsEach(cfg: Config, db: Db, ctx: Ctx, c: Client, paths: seq<Path>)
    ensures FitsAll(cfg, db, ctx, c, paths) <==> forall p :: p in paths ==> ResumeFits(cfg, db, ctx, c, p)
  {
    if FitsAll(cfg, db, ctx, c, paths) {
      forall p | p in paths ensures ResumeFits(cfg, db, ctx, c, p) { assert p !in Misfits(cfg, db, ctx, c, paths); }
    }
  }

  /** Pushing one file does not spoil the uploads pending for others. */
  lemma StillFits(cfg: Config, db: Db, db': Db, ctx: Ctx, w: Pair, path: Path, paths: seq<Path>)
    requires path in w.client.fs && FitsAll(cfg, db, ctx, w.client, paths) && Submap(db'.uploads, db.uploads)
    ensures FitsAll(cfg, db', ctx, PushFile(cfg.hash, ctx, w, path).client, paths)
  {
    FitsEach(cfg, db, ctx, w.client, paths);
    FitsEach(cfg, db', ctx, PushFile(cfg.hash, ctx, w, path).client, paths);
    forall p | p in paths ensures ResumeFits(cfg, db', ctx, PushFile(cfg.hash, ctx, w, path).client, p) {
      assert ResumeFits(cfg, db, ctx, w.client, p);
    }
  }

  /** Every upload the client would resume can be. */
  predicate AllGoodRecords(cfg: Config, s: State, ctx: Ctx, c: Client, paths: seq<Path>)
    requires AllPresent(c, paths)
  {
    forall i :: 0 <= i < |paths| ==> GoodRecord(cfg, s, ctx, c, paths[i])
  }

  lemma GoodAlong(cfg: Config, ctx: Ctx, s: State, c: Client, s': State, c': Client, ok: bool, path: Path, paths: seq<Path>)
    requires AllPresent(c, paths) && path in c.fs && Inv(cfg, s) && Distinguished(cfg.hash, c.fs)
    requires AllGoodRecords(cfg, s, ctx, c, paths) && Sweep(s', c', ok) == SweepOne(cfg, ctx, Sweep(s, c, true), path)
    ensures AllGoodRecords(cfg, s', ctx, c', paths)
  {
    forall i | 0 <= i < |paths| ensures GoodRecord(cfg, s', ctx, c', paths[i]) {
      SweepKeepsGood(cfg, ctx, Sweep(s, c, true), path, paths[i]);
    }
  }

  /**
   * Part-way through the scanning loop, with nothing lost: server and client are as swept so far, and
   * with nothing to resume, nothing has been refused exactly if what was reached is welcome.
   */
  ghost predicate Progress(cfg: Config, s: State, s': State, ctx: Ctx, w: Pair, c: Client, paths: seq<Path>, i: nat, refused: bool)
    requires AllPresent(w.client, paths) && i <= |paths|
  {
    && Sweep(s', c, !refused) == SweepAll(cfg, ctx, Sweep(s, w.client, true), paths[..i])
    && (NonePending(s.db, ctx, w.client, paths) ==>
          && s'.db.uploads == s.db.uploads
          && TracksPaths(cfg, s, s', ctx.tenant, w.client, paths[..i], refused)
          && (!refused ==> Pair(c, s'.db.files) == PushScanned(cfg.hash, ctx, w, paths[..i]))
          && (NoDuplicates(paths) && NoRows(s.db.files, ctx.tenant) ==> Shows(s'.db.files, ctx.tenant, paths[..i], refused)))
  }

  lemma BeginPush(cfg: Config, s: State, ctx: Ctx, w: Pair, paths: seq<Path>)
    requires AllPresent(w.client, paths) && w.files == s.db.files
    ensures Progress(cfg, s, s, ctx, w, w.client, paths, 0, false)
    ensures PushScanned(cfg.hash, ctx, w, paths[..0]) == w && paths[..|paths|] == paths
    ensures NonePending(s.db, ctx, w.client, paths) ==> AllGoodRecords(cfg, s, ctx, w.client, paths)
    ensures AllGoodRecords(cfg, s, ctx, w.client, paths) ==> FitsAll(cfg, s.db, ctx, w.client, paths)
  {
    TracksNothing(cfg, s, ctx.tenant, w.client);
    assert paths[..0] == [];
    FitsEach(cfg, s.db, ctx, w.client, paths);
    if NonePending(s.db, ctx, w.client, paths) {
      forall i | 0 <= i < |paths| ensures GoodRecord(cfg, s, ctx, w.client, paths[i]) {
        assert paths[i] in paths && !Pending(s.db, ctx, w.client, paths[i]);
      }
    }
    if AllGoodRecords(cfg, s, ctx, w.client, paths) {
      forall p | p in paths ensures ResumeFits(cfg, s.db, ctx, w.client, p) {
        var k :| 0 <= k < |paths| && paths[k] == p;
        assert GoodRecord(cfg, s, ctx, w.client, paths[k]);
      }
    }
  }

  lemma EndPush(cfg: Config, s: State, mid: State, files: map<string, FileMeta>, ctx: Ctx, w: Pair, c: Client, paths: seq<Path>, refused: bool)
    requires AllPresent(w.client, paths) && Progress(cfg, s, mid, ctx, w, c, paths, |paths|, refused)
    requires SameRows(mid.db.files, files)
    ensures Sweep(mid, c, !refused) == SweepAll(cfg, ctx, Sweep(s, w.client, true), paths)
    ensures NonePending(s.db, ctx, w.client, paths) ==>
              && (!refused <==> Welcome(cfg, s, ctx.tenant, w.client, paths))
              && (NoDuplicates(paths) && NoRows(s.db.files, ctx.tenant) ==> Shows(files, ctx.tenant, paths, refused))
  {
    assert paths[..|paths|] == paths;
    if Shows(mid.db.files, ctx.tenant, paths, refused) { MarksShow(mid.db.files, files, ctx.tenant, paths, refused); }
  }

  /** A record that is pending part-way was so at the start, and for the same path. */
  lemma {:induction false} StillNonePending(cfg: Config, ctx: Ctx, w: Sweep, paths: seq<Path>, reached: seq<Path>, p: Path)
    requires AllPresent(w.client, reached) && NonePending(w.server.db, ctx, w.client, paths) && p in paths
    requires SweepAll(cfg, ctx, w, reached).server.db.uploads == w.server.db.uploads
    ensures !Pending(SweepAll(cfg, ctx, w, reached).server.db, ctx, SweepAll(cfg, ctx, w, reached).client, p)
  {
    RecordsAlong(cfg, ctx, w, reached, p);
    assert !Pending(w.server.db, ctx, w.client, p);
  }

  lemma {:induction false} RecordsAlong(cfg: Config, ctx: Ctx, w: Sweep, reached: seq<Path>, p: Path)
    requires AllPresent(w.client, reached)
    ensures var records := SweepAll(cfg, ctx, w, reached).client.records;
            p in records && records[p].uploadId.Some? ==> p in w.client.records && records[p] == w.client.records[p]
  {
    if reached != [] { RecordsAlong(cfg, ctx, w, reached[..|reached| - 1], p); }
  }

  /** One turn of the loop, in which client and server do what they do for one path. */
  lemma ProgressNext(cfg: Config, s: State, mid: State, s': State, ctx: Ctx, w: Pair, c: Client, c': Client,
                     paths: seq<Path>, i: nat, refused: bool, ok: bool)
    requires cfg.Valid() && Sound(cfg, mid) && AllPresent(w.client, paths) && i < |paths| && Distinguished(cfg.hash, w.client.fs)
    requires Progress(cfg, s, mid, ctx, w, c, paths, i, refused) && c.fs == w.client.fs
    requires Sweep(s', c', ok) == SweepOne(cfg, ctx, Sweep(mid, c, true), paths[i])
    ensures Progress(cfg, s, s', ctx, w, c', paths, i + 1, refused || !ok)
  {
    var start := Sweep(s, w.client, true);
    SweepNext(cfg, ctx, start, paths, i);
    if NonePending(s.db, ctx, w.client, paths) {
      StillNonePending(cfg, ctx, start, paths, paths[..i], paths[i]);
      SweepServes(cfg, mid, s', ctx, c, c', paths[i], ok);
      TracksNext(cfg, s, mid, s', ctx, w, paths, i, refused, ok);
      if NoDuplicates(paths) && NoRows(s.db.files, ctx.tenant) { ShowsNext(cfg, mid, s', ctx, c, paths, i, refused, ok); }
      ScanNext(cfg.hash, ctx, w, paths, i);
    }
  }

  /** Without an upload to resume, a sweep is an offer, and one that is taken a push of the file. */
  lemma SweepServes(cfg: Config, s: State, s': State, ctx: Ctx, c: Client, c': Client, path: Path, ok: bool)
    requires path in c.fs && !Pending(s.db, ctx, c, path)
    requires Sweep(s', c', ok) == SweepOne(cfg, ctx, Sweep(s, c, true), path)
    ensures Serves(cfg, s, s', ctx, c, path, ok) && s'.db.uploads == s.db.uploads
    ensures ok ==> Pair(c', s'.db.files) == PushFile(cfg.hash, ctx, Pair(c, s.db.files), path)
  {
  }

  lemma MissingAs(c: Client, c': Client, path: Path)
    requires c'.fs == c.fs && path in c.fs && c'.records - {path} == c.records - {path}
    ensures Missing(c') == Missing(c)
  {
    forall p | p != path ensures p in c'.records <==> p in c.records {
      assert p in c'.records <==> p in c'.records - {path};
      assert p in c.records <==> p in c.records - {path};
    }
  }

  lemma ScanNext(h: Hasher, ctx: Ctx, w: Pair, scanned: seq<Path>, i: nat)
    requires i < |scanned| && AllPresent(w.client, scanned)
    ensures PushScanned(h, ctx, w, scanned[..i + 1]) == PushFile(h, ctx, PushScanned(h, ctx, w, scanned[..i]), scanned[i])
  {
    assert scanned[..i + 1][..i] == scanned[..i];
  }

  /**
   * With nothing lost: an upload still pending that was opened for the file goes through; without
   * one the server takes the file exactly if it accepts it, and is then as after a direct create.
   */
  ghost predicate ServedAs(cfg: Config, s: State, s': State, ctx: Ctx, c: Client, c': Client, path: Path, ok: bool)
    requires path in c.fs
  {
    if Pending(s.db, ctx, c, path) then
      var id := c.records[path].uploadId.value;
      Resumable(cfg, s, ctx, id, c.fs[path]) ==> ok && s' == Finalized(cfg, s, ctx, s.db.uploads[id], c.fs[path]).0
    else
      |c.fs[path]| >= CHUNK_SIZE && NoCollision(cfg, s.disk, ctx.tenant, c.fs[path]) ==>
        && (ok <==> Accepts(cfg, s, ctx, path, c.fs[path])) && s' == Offered(cfg, s, ctx, path, c.fs[path])
        && (!ok ==> c' == c)
  }

  lemma ServedIsSwept(cfg: Config, s: State, s': State, ctx: Ctx, c: Client, c': Client, path: Path, ok: bool)
    requires path in c.fs && |c.fs[path]| >= CHUNK_SIZE && NeedsUpload(cfg.hash, c, path)
    requires ServedAs(cfg, s, s', ctx, c, c', path, ok)
    requires GoodRecord(cfg, s, ctx, c, path) && NoCollision(cfg, s.disk, ctx.tenant, c.fs[path])
    requires ok ==> c' == PushFile(cfg.hash, ctx, Pair(c, s.db.files), path).client
    ensures Sweep(s', c', ok) == SweepOne(cfg, ctx, Sweep(s, c, true), path)
  {
  }

  lemma OfferedIsSwept(cfg: Config, s: State, s': State, ctx: Ctx, c: Client, c': Client, path: Path, ok: bool)
    requires path in c.fs && |c.fs[path]| < CHUNK_SIZE && NeedsUpload(cfg.hash, c, path)
    requires (ok <==> Accepts(cfg, s, ctx, path, c.fs[path])) && s' == Offered(cfg, s, ctx, path, c.fs[path])
    requires c' == if ok then PushFile(cfg.hash, ctx, Pair(c, s.db.files), path).client else c
    ensures Sweep(s', c', ok) == SweepOne(cfg, ctx, Sweep(s, c, true), path)
  {
  }

  /** The same rows, but for marks. */
  predicate SameRows(files: map<string, FileMeta>, files': map<string, FileMeta>) {
    files'.Keys == files.Keys && forall key :: key in files ==> files'[key].path == files[key].path
  }

  lemma MarksShow(files: map<string, FileMeta>, files': map<string, FileMeta>, t: Tenant, paths: seq<Path>, failed: bool)
    requires SameRows(files, files') && Shows(files, t, paths, failed)
    ensures Shows(files', t, paths, failed)
  {
  }

  /** The record names the upload; hash and version are as before, or else the file's and none. */
  predicate NamesUpload(record: SyncRecord, id: UploadId, before: Option<SyncRecord>, hash: Hash) {
    && record.uploadId == Some(id)
    && match before
       case None => record.localHash == hash && record.serverVersion == 0
       case Some(earlier) => record.localHash == earlier.localHash && record.serverVersion == earlier.serverVersion
  }

  class SyncClient {
    const h: Hasher
    var fs: map<Path, Bytes>
    var records: map<Path, SyncRecord>

    ghost function Model(): Client reads this { Client(fs, records) }

    constructor (h: Hasher, fs: map<Path, Bytes>)
      ensures this.h == h && Model() == Client(fs, map[])
    {
      this.h, this.fs, records := h, fs, map[];
    }

    method SendOne(api: SyncApi, id: UploadId, ghost file: Bytes, index: nat, body: Bytes) returns (r: Result<()>, ghost arrived: seq<nat>)
      requires api.Valid() && index < 0x1_0000_0000 && body == Slice(file, index)
      modifies api, api.server
      ensures api.Valid() && api.changes == old(api.changes) && api.failed == (old(api.failed) || r.Err?) && (old(api.lost) ==> api.lost)
      ensures api.chunkCalls == old(api.chunkCalls) + [(id, index)]
      ensures api.server.Model() == SendChunks(old(api.server.Model()), api.ctx, id, file, arrived)
      ensures (arrived == [] || arrived == [index]) && (r.Ok? ==> arrived == [index])
      ensures !api.lost ==> r == ReplaceChunk(old(api.server.Model()), api.ctx, id, index, Slice(file, index)).1
    {
      OneChunk(api.server.Model(), api.ctx, id, file, index);
      ghost var before := api.server.Model();
      r := api.SendChunk(id, index, body);
      arrived := if r.Err? && api.server.Model() == before then [] else [index];
    }

    /** Send the chunks at these positions of the batch, one after another in whatever order. */
    method SendAll(api: SyncApi, id: UploadId, ghost file: Bytes, batch: seq<(nat, Bytes)>, positions: set<nat>)
      returns (results: map<nat, Result<()>>, ghost order: seq<nat>, ghost arrived: seq<nat>)
      requires api.Valid() && ChunkBatch(file, batch) && forall k :: k in positions ==> k < |batch|
      modifies api, api.server
      ensures api.Valid() && api.changes == old(api.changes) && results.Keys == positions && (old(api.lost) ==> api.lost)
      ensures NoDuplicates(order) && Elements(order) == Picked(batch, positions)
      ensures api.chunkCalls == old(api.chunkCalls) + Calls(id, order)
      ensures api.server.Model() == SendChunks(old(api.server.Model()), api.ctx, id, file, arrived)
      ensures if AllOk(results) then api.failed == old(api.failed) && arrived == order else api.failed
      ensures !api.lost && TakesBatch(old(api.server.Model()), api.ctx, id, batch) ==> AllOk(results)
      decreases |positions|
    {
      if positions == {} { return map[], [], []; }
      var k :| k in positions;
      var sent, first := SendOne(api, id, file, batch[k].0, batch[k].1);
      TakesOne(old(api.server.Model()), api.ctx, id, batch, file, k, first);
      results, order, arrived := SendAll(api, id, file, batch, positions - {k});
      SentFirst(file, batch, positions, k, sent, results, order);
      SendChunksAppend(old(api.server.Model()), api.ctx, id, file, first, arrived);
      CallsFirst(old(api.chunkCalls), id, batch[k].0, order);
      results, order, arrived := results[k := sent], [batch[k].0] + order, first + arrived;
    }

    /** `join_all`: every chunk of the batch is sent before the first error, in batch order, is reported. */
    method Flush(api: SyncApi, id: UploadId, ghost file: Bytes, batch: seq<(nat, Bytes)>)
      returns (r: Result<()>, ghost order: seq<nat>, ghost arrived: seq<nat>)
      requires api.Valid() && ChunkBatch(file, batch)
      modifies api, api.server
      ensures api.Valid() && api.changes == old(api.changes) && (r.Err? ==> api.failed) && (old(api.lost) ==> api.lost)
      ensures NoDuplicates(order) && Elements(order) == Elements(Indices(batch))
      ensures api.chunkCalls == old(api.chunkCalls) + Calls(id, order)
      ensures api.server.Model() == SendChunks(old(api.server.Model()), api.ctx, id, file, arrived)
      ensures r.Ok? ==> api.failed == old(api.failed) && arrived == order
      ensures !api.lost && TakesBatch(old(api.server.Model()), api.ctx, id, batch) ==> r.Ok?
    {
      BelowCount(|batch|);
      AllPicked(batch);
      var results;
      results, order, arrived := SendAll(api, id, file, batch, Below(|batch|));
      r := FirstError(results, |batch|);
    }

    /**
     * The sending loop of `resume_upload`. The file cursor advances by a chunk whether or not the
     * chunk is wanted; a batch size of zero means one batch at the end, and any other that every
     * batch but the last has that size. No chunk is sent that the server has, and none twice; if
     * all goes well each that it lacks has been sent, with its own slice; if not, some have arrived.
     */
    method SendMissing(api: SyncApi, id: UploadId, file: Bytes, received: seq<nat>, count: nat, batchSize: nat)
      returns (r: Result<()>, ghost sent: seq<nat>, ghost arrived: seq<nat>, ghost batches: seq<nat>)
      requires api.Valid() && count <= 0x1_0000_0000
      modifies api, api.server
      ensures api.Valid() && api.changes == old(api.changes) && (r.Err? ==> api.failed) && (old(api.lost) ==> api.lost)
      ensures NoDuplicates(sent) && Elements(sent) <= Wanted(received, count)
      ensures api.chunkCalls == old(api.chunkCalls) + Calls(id, sent)
      ensures api.server.Model() == SendChunks(old(api.server.Model()), api.ctx, id, file, arrived)
      ensures r.Ok? ==> api.failed == old(api.failed) && Elements(sent) == Wanted(received, count) && arrived == sent
      ensures !api.lost && TakesChunks(old(api.server.Model()), api.ctx, id, count) ==> r.Ok?
      ensures if batchSize == 0 then |batches| <= 1
              else forall k :: 0 <= k < |batches| ==> if k < |batches| - 1 then batches[k] == batchSize else batches[k] <= batchSize
    {
      ghost var start, calls := api.server.Model(), api.chunkCalls;
      sent, batches := [], [];
      var joinSet: seq<(nat, Bytes)> := [];
      var cursor := 0;
      assert Calls(id, []) == [];
      for idx := 0 to count
        invariant api.Valid() && api.changes == old(api.changes) && api.failed == old(api.failed) && (old(api.lost) ==> api.lost)
        invariant cursor == Offset(file, idx)
        invariant SentSoFar(file, received, idx, sent, joinSet)
        invariant api.chunkCalls == old(api.chunkCalls) + Calls(id, sent)
        invariant api.server.Model() == SendChunks(start, api.ctx, id, file, sent)
        invariant if batchSize == 0 then batches == [] else |joinSet| < batchSize && forall k :: 0 <= k < |batches| ==> batches[k] == batchSize
      {
        var taken := Min(CHUNK_SIZE, |file| - cursor);
        var buf := file[cursor..cursor + taken];
        cursor := cursor + taken;
        if idx in received {
          Skipped(file, received, idx, sent, joinSet);
          continue;
        }
        Grown(file, received, idx, sent, joinSet, buf);
        joinSet := joinSet + [(idx, buf)];
        if |joinSet| == batchSize {
          batches := batches + [|joinSet|];
          var flushed;
          flushed, sent, arrived := FlushInto(api, id, file, joinSet, start, calls, sent, received, idx + 1, count);
          if flushed.Err? { return flushed, sent, arrived, batches; }
          joinSet := [];
        }
      }
      if joinSet != [] {
        batches := batches + [|joinSet|];
        var flushed;
        flushed, sent, arrived := FlushInto(api, id, file, joinSet, start, calls, sent, received, count, count);
        if flushed.Err? { return flushed, sent, arrived, batches; }
      }
      assert SentSoFar(file, received, count, sent, []);
      assert Elements(Indices([])) == {};
      return Ok(()), sent, sent, batches;
    }

    /** One batch of the sending loop, and what it adds to the chunks sent since the upload was as in `start`. */
    method FlushInto(api: SyncApi, id: UploadId, ghost file: Bytes, batch: seq<(nat, Bytes)>, ghost start: State,
                     ghost calls: seq<(UploadId, nat)>, ghost sent: seq<nat>, ghost received: seq<nat>, ghost idx: nat, ghost count: nat)
      returns (r: Result<()>, ghost sent': seq<nat>, ghost arrived: seq<nat>)
      requires api.Valid() && SentSoFar(file, received, idx, sent, batch) && idx <= count
      requires api.server.Model() == SendChunks(start, api.ctx, id, file, sent) && api.chunkCalls == calls + Calls(id, sent)
      modifies api, api.server
      ensures api.Valid() && api.changes == old(api.changes) && (r.Err? ==> api.failed) && (old(api.lost) ==> api.lost)
      ensures api.chunkCalls == calls + Calls(id, sent')
      ensures SentSoFar(file, received, idx, sent', []) && Elements(sent') <= Wanted(received, count)
      ensures api.server.Model() == SendChunks(start, api.ctx, id, file, arrived)
      ensures r.Ok? ==> api.failed == old(api.failed) && arrived == sent'
      ensures !api.lost && TakesChunks(start, api.ctx, id, count) ==> r.Ok?
    {
      if TakesChunks(start, api.ctx, id, count) { StillTakes(start, api.ctx, id, count, file, sent); }
      ghost var order, came;
      r, order, came := Flush(api, id, file, batch);
      sent', arrived := sent + order, sent + came;
      Flushed(file, received, idx, sent, batch, order);
      SendChunksAppend(start, api.ctx, id, file, sent, came);
      CallsAppend(calls, id, sent, order);
    }

    /** Records and rows are as the specification has them. */
    ghost predicate PushedAs(w: Pair, api: SyncApi)
      reads this, api, api.server
    {
      Model() == w.client && api.server.files == w.files
    }

    /** `push_single_file` */
    method PushSingleFile(api: SyncApi, path: Path) returns (r: Result<()>)
      requires api.Valid() && api.server.cfg.hash == h && path in fs
      modifies this`records, api, api.server
      ensures api.Valid() && api.failed == (old(api.failed) || r.Err?) && (old(api.lost) ==> api.lost)
      ensures r.Ok? ==>
                && PushedAs(PushFile(h, api.ctx, old(Pair(Model(), api.server.files)), path), api)
                && api.server.uploads == old(api.server.uploads)
      ensures !api.lost && old(NeedsUpload(h, Model(), path)) && |fs[path]| < CHUNK_SIZE ==>
                && (r.Ok? <==> Accepts(api.server.cfg, old(api.server.Model()), api.ctx, path, fs[path]))
                && api.server.Model() == Offered(api.server.cfg, old(api.server.Model()), api.ctx, path, fs[path])
      ensures r.Err? ==> records == old(records)
      ensures !NeedsUpload(h, old(Model()), path) ==>
                r.Ok? && Model() == old(Model()) && unchanged(api) && unchanged(api.server)
    {
      var bytes := fs[path];
      var hash := h(bytes);
      if path in records && records[path].localHash == hash { return Ok(()); }
      var resp := api.CreateFile(path, bytes);
      if resp.Err? { return Err(resp.error); }
      records := records[path := SyncRecord(path, hash, resp.value.version, None)];
      return Ok(());
    }

    /** `push_single_file_chunked` */
    method PushSingleFileChunked(api: SyncApi, path: Path, batchSize: nat) returns (r: Result<()>)
      requires api.Valid() && api.server.cfg.hash == h && path in fs
      modifies this`records, api, api.server
      ensures api.Valid() && api.failed == (old(api.failed) || r.Err?) && (old(api.lost) ==> api.lost)
      ensures r.Ok? && old(ResumeFits(api.server.cfg, api.server.Db(), api.ctx, Model(), path)) ==>
                && PushedAs(PushFile(h, api.ctx, old(Pair(Model(), api.server.files)), path), api)
                && Submap(api.server.uploads, old(api.server.uploads))
      ensures !api.lost && NeedsUpload(h, old(Model()), path) ==>
                ServedAs(api.server.cfg, old(api.server.Model()), api.server.Model(), api.ctx, old(Model()), Model(), path, r.Ok?)
      ensures StillCanResume(api.server.cfg, old(api.server.Model()), api.server.Model(), api.ctx, old(Model()), Model(), path)
      ensures r.Ok? ==> !NeedsUpload(h, Model(), path) && records - {path} == old(records) - {path}
      ensures r.Err? ==> Model() == old(Model()) || exists id :: Model() == OpenRecord(old(Model()), path, h(old(fs[path])), id)
      ensures !NeedsUpload(h, old(Model()), path) ==>
                r.Ok? && Model() == old(Model()) && unchanged(api) && unchanged(api.server)
    {
      var hash := h(fs[path]);
      if path in records && records[path].localHash == hash { return Ok(()); }
      r := OpenThenResume(api, path, hash, batchSize);
    }

    /** The rest of `push_single_file_chunked`, once the file is known to need uploading. */
    method OpenThenResume(api: SyncApi, path: Path, hash: Hash, batchSize: nat) returns (r: Result<()>)
      requires api.Valid() && api.server.cfg.hash == h && path in fs && hash == h(fs[path]) && NeedsUpload(h, Model(), path)
      modifies this`records, api, api.server
      ensures api.Valid() && api.failed == (old(api.failed) || r.Err?) && (old(api.lost) ==> api.lost)
      ensures r.Ok? && old(ResumeFits(api.server.cfg, api.server.Db(), api.ctx, Model(), path)) ==>
                && PushedAs(PushFile(h, api.ctx, old(Pair(Model(), api.server.files)), path), api)
                && Submap(api.server.uploads, old(api.server.uploads))
      ensures !api.lost ==>
                ServedAs(api.server.cfg, old(api.server.Model()), api.server.Model(), api.ctx, old(Model()), Model(), path, r.Ok?)
      ensures StillCanResume(api.server.cfg, old(api.server.Model()), api.server.Model(), api.ctx, old(Model()), Model(), path)
      ensures r.Ok? ==> exists version :: records == old(records)[path := SyncRecord(path, hash, version, None)]
      ensures r.Err? ==> Model() == old(Model()) || exists id :: Model() == OpenRecord(old(Model()), path, hash, id)
    {
      var totalSize := |fs[path]|;
      var chunkCount := ChunkCount(totalSize);
      AskedOutcome(api.server.cfg, api.server.Model(), api.ctx, path, fs[path]);
      var target := OpenUpload(api, path, InitRequest(path, totalSize, hash, chunkCount));
      ghost var start, mid, client := old(api.server.Model()), api.server.Model(), Model();
      if target.Err? {
        UnheardOpening(api.server.cfg, start, mid, api.ctx, client, path, RequestFor(api.server.cfg, path, fs[path], chunkCount));
        return Err(target.error);
      }
      var (id, received, count) := target.value;
      r := ResumeUpload(api, id, path, received, count, hash, batchSize);
      InterruptedCanResume(api.server.cfg, start, mid, api.server.Model(), api.ctx, client, Model(), path, id);
    }

    /** The upload to send to: the one the record names, if the server still has it, or a new one. */
    method OpenUpload(api: SyncApi, path: Path, req: InitRequest) returns (r: Result<(UploadId, seq<nat>, nat)>)
      requires api.Valid() && path in fs && req == InitRequest(path, |fs[path]|, h(fs[path]), ChunkCount(|fs[path]|))
      requires api.server.cfg.hash == h
      modifies api, api.server
      ensures api.Valid() && api.failed == (old(api.failed) || r.Err?) && (old(api.lost) ==> api.lost)
      ensures r.Ok? ==>
                var (id, received, count) := r.value;
                && Owns(api.server.Db(), api.ctx.tenant, id) && count <= MAX_CHUNK_COUNT
                && received == api.server.uploads[id].chunksReceived && count == api.server.uploads[id].chunkCount
                && api.server.files == old(api.server.files)
                && Submap(api.server.uploads - {id}, old(api.server.uploads))
                && (old(ResumeFits(api.server.cfg, api.server.Db(), api.ctx, Model(), path)) ==>
                      var upload := api.server.uploads[id];
                      upload.path == path && upload.totalHash == req.totalHash && upload.totalSize == req.totalSize)
      ensures r.Ok? ==>
                var id := r.value.0;
                || (old(Pending(api.server.Db(), api.ctx, Model(), path)) && id == records[path].uploadId.value
                    && api.server.Model() == old(api.server.Model()))
                || (api.server.Model(), Ok(id)) == CreateUpload(api.server.cfg, old(api.server.Model()), api.ctx, req)
      ensures r.Err? ==>
                api.server.Model() == old(api.server.Model())
                || api.server.Model() == CreateUpload(api.server.cfg, old(api.server.Model()), api.ctx, req).0
      ensures !api.lost && old(Pending(api.server.Db(), api.ctx, Model(), path)) ==>
                r.Ok? && r.value.0 == old(records[path].uploadId.value) && api.server.Model() == old(api.server.Model())
      ensures !api.lost && !old(Pending(api.server.Db(), api.ctx, Model(), path)) ==>
                var asked := AskUpload(api.server.cfg, old(api.server.Model()), api.ctx, req);
                api.server.Model() == asked.0 && (r.Ok? <==> asked.1.Ok?) && (r.Ok? ==> asked.1 == Ok(r.value.0))
    {
      if path in records && records[path].uploadId.Some? {
        var id := records[path].uploadId.value;
        var found := api.GetUpload(id);
        if found.Ok? {
          return Ok((id, found.value.chunksReceived, found.value.chunkCount));
        }
      }
      var init := api.InitUpload(req);
      if init.Err? { return Err(init.error); }
      return Ok((init.value, [], req.chunkCount));
    }

    /** `resume_upload`, between its two record writes. */
    method SendAndFinalize(api: SyncApi, id: UploadId, file: Bytes, received: seq<nat>, count: nat, batchSize: nat)
      returns (r: Result<FileMeta>, ghost sent: seq<nat>)
      requires api.Valid() && count <= MAX_CHUNK_COUNT
      modifies api, api.server
      ensures api.Valid() && api.changes == old(api.changes) && api.failed == (old(api.failed) || r.Err?) && (old(api.lost) ==> api.lost)
      ensures !api.lost && Resumable(api.server.cfg, old(api.server.Model()), api.ctx, id, file)
              && received == old(api.server.uploads)[id].chunksReceived && count == old(api.server.uploads)[id].chunkCount ==>
                r.Ok? && (api.server.Model(), r)
                         == Finalized(api.server.cfg, old(api.server.Model()), api.ctx, old(api.server.uploads)[id], file)
      ensures Interrupted(api.server.cfg, old(api.server.Model()), api.server.Model(), api.ctx, id, file)
      ensures NoDuplicates(sent) && api.chunkCalls == old(api.chunkCalls) + Calls(id, sent) && Elements(sent) <= Wanted(received, count)
      ensures r.Ok? ==>
                && Elements(sent) == Wanted(received, count)
                && (api.server.Model(), r) == FinalizeUpload(api.server.cfg,
                     SendChunks(old(api.server.Model()), api.ctx, id, file, sent), api.ctx, id)
      ensures r.Ok? && Owns(old(api.server.Db()), api.ctx.tenant, id) ==>
                var upload := old(api.server.uploads)[id];
                && r.value == PutRow(old(api.server.files), api.ctx, upload.path, upload.totalSize, upload.totalHash)
                && api.server.files == WithRow(old(api.server.files), api.ctx, upload.path, upload.totalSize, upload.totalHash)
                && api.server.uploads == old(api.server.uploads) - {id}
    {
      ghost var start, arrived, batches := api.server.Model(), [], [];
      var sending;
      sending, sent, arrived, batches := SendMissing(api, id, file, received, count, batchSize);
      assert CameAsFar(api.server.cfg, start, api.server.Model(), api.ctx, id, file, arrived);
      if sending.Err? { return Err(sending.error), sent; }
      if Resumable(api.server.cfg, start, api.ctx, id, file)
         && received == start.db.uploads[id].chunksReceived && count == start.db.uploads[id].chunkCount {
        ResumingSucceeds(api.server.cfg, start, api.ctx, id, file, sent);
      }
      r := api.FinalizeUpload(id);
      assert CameAsFar(api.server.cfg, start, api.server.Model(), api.ctx, id, file, arrived);
      if r.Ok? && Owns(start.db, api.ctx.tenant, id) {
        assert UploadOk(start.db, start.disk, start.nextId, id);
        ResumedTables(api.server.cfg, start, api.ctx, id, file, sent);
      }
    }

    /** `resume_upload` */
    method ResumeUpload(api: SyncApi, id: UploadId, path: Path, received: seq<nat>, chunkCount: nat, hash: Hash, batchSize: nat)
      returns (r: Result<()>)
      requires api.Valid() && path in fs && hash == h(fs[path])
      requires Owns(api.server.Db(), api.ctx.tenant, id) && chunkCount <= MAX_CHUNK_COUNT
      modifies this`records, api, api.server
      ensures api.Valid() && api.failed == (old(api.failed) || r.Err?) && (old(api.lost) ==> api.lost)
      ensures !api.lost && Resumable(api.server.cfg, old(api.server.Model()), api.ctx, id, fs[path])
              && received == old(api.server.uploads[id].chunksReceived) && chunkCount == old(api.server.uploads[id].chunkCount) ==>
                r.Ok? && api.server.Model()
                         == Finalized(api.server.cfg, old(api.server.Model()), api.ctx, old(api.server.uploads[id]), fs[path]).0
      ensures Interrupted(api.server.cfg, old(api.server.Model()), api.server.Model(), api.ctx, id, fs[path])
      ensures r.Err? ==> Model() == OpenRecord(old(Model()), path, h(old(fs[path])), id)
      ensures r.Err? ==> path in records && NamesUpload(records[path], id, if path in old(records) then Some(old(records)[path]) else None, hash)
      ensures r.Ok? ==>
                var upload := old(api.server.uploads[id]);
                var meta := PutRow(old(api.server.files), api.ctx, upload.path, upload.totalSize, upload.totalHash);
                && records == old(records)[path := SyncRecord(path, hash, meta.version, None)]
                && api.server.files == WithRow(old(api.server.files), api.ctx, upload.path, upload.totalSize, upload.totalHash)
                && api.server.uploads == old(api.server.uploads) - {id}
    {
      if path in records {
        records := records[path := records[path].(uploadId := Some(id))];
      } else {
        records := records[path := SyncRecord(path, hash, 0, Some(id))];
      }
      var resp, sent := SendAndFinalize(api, id, fs[path], received, chunkCount, batchSize);
      if resp.Err? { return Err(resp.error); }
      PutTwice(old(records), path, records[path], SyncRecord(path, hash, resp.value.version, None));
      records := records[path := SyncRecord(path, hash, resp.value.version, None)];
      return Ok(());
    }

    /** `delete_file` */
    method DeleteFile(api: SyncApi, path: Path) returns (r: Result<()>)
      requires api.Valid()
      modifies this`records, api, api.server
      ensures api.Valid() && api.failed == (old(api.failed) || r.Err?) && (old(api.lost) ==> api.lost) && (!api.lost ==> r.Ok?)
      ensures r.Ok? ==> records == old(records) - {path}
                        && api.server.files == MarkDeleted(old(api.server.files), MakeKey(api.ctx.tenant, path))
      ensures r.Err? ==> records == old(records)
      ensures SameRows(old(api.server.files), api.server.files)
      ensures api.server.Model() == old(api.server.Model()).(db := old(api.server.Db()).(files := api.server.files))
    {
      r := api.DeleteFile(path);
      if r.Ok? { records := records - {path}; }
    }

    /**
     * `push`: if no call fails, the outcome is that of the specification, whatever the sizes of
     * the files, the batch size, and the uploads resumed; a settled client makes no call. With no
     * message lost and nothing to resume, no call fails exactly if all that needs uploading passes
     * validation and what of it is new to the server fits the quota.
     */
    method Push(api: SyncApi, scanned: seq<Path>, batchSize: nat)
      requires api.Valid() && api.server.cfg.hash == h && AllPresent(Model(), scanned)
      modifies this`records, api, api.server
      ensures api.Valid() && (old(api.failed) ==> api.failed) && (old(api.lost) ==> api.lost)
      ensures !api.lost && old(AllGoodRecords(api.server.cfg, api.server.Model(), api.ctx, Model(), scanned)) && Distinguished(h, fs) ==>
                var w := SweepMissing(api.ctx, SweepAll(api.server.cfg, api.ctx, old(Sweep(api.server.Model(), Model(), true)), scanned));
                api.server.Model() == w.server && Model() == w.client && api.failed == (old(api.failed) || !w.ok)
      ensures !api.lost ==> forall p :: p in old(Missing(Model())) ==>
                p !in records
                && (MakeKey(api.ctx.tenant, p) in api.server.files ==> api.server.files[MakeKey(api.ctx.tenant, p)].isDeleted)
      ensures !api.lost && !old(api.failed) && old(NonePending(api.server.Db(), api.ctx, Model(), scanned)) && Distinguished(h, fs) ==>
                (!api.failed <==> Welcome(api.server.cfg, old(api.server.Model()), api.ctx.tenant, old(Model()), scanned))
      ensures !api.lost && !old(api.failed) && old(NonePending(api.server.Db(), api.ctx, Model(), scanned)) && Distinguished(h, fs)
              && NoDuplicates(scanned) && old(NoRows(api.server.files, api.ctx.tenant)) ==>
                Shows(api.server.files, api.ctx.tenant, scanned, api.failed)
      ensures !api.failed && old(FitsAll(api.server.cfg, api.server.Db(), api.ctx, Model(), scanned)) ==>
                PushedAs(PushAll(h, api.ctx, old(Pair(Model(), api.server.files)), scanned), api)
      ensures Settled(h, old(Model()), scanned) ==> Model() == old(Model()) && unchanged(api) && unchanged(api.server)
    {
      ghost var start, before := Pair(Model(), api.server.files), api.server.Model();
      ghost var fits := FitsAll(api.server.cfg, api.server.Db(), api.ctx, Model(), scanned);
      ghost var tracked := AllGoodRecords(api.server.cfg, before, api.ctx, Model(), scanned) && Distinguished(h, fs);
      BeginPush(api.server.cfg, before, api.ctx, start, scanned);
      ghost var refused := PushScannedFiles(api, scanned, batchSize, start, before, fits, tracked);
      ghost var mid, client := api.server.Model(), Model();
      PushMissingFiles(api);
      if !api.lost && tracked {
        EndPush(api.server.cfg, before, mid, api.server.files, api.ctx, start, client, scanned, refused);
      }
    }

    /** The first loop of `push`. */
    method PushScannedFiles(api: SyncApi, scanned: seq<Path>, batchSize: nat,
                            ghost start: Pair, ghost before: State, ghost fits: bool, ghost tracked: bool)
      returns (ghost refused: bool)
      requires api.Valid() && api.server.cfg.hash == h && AllPresent(start.client, scanned) && Model() == start.client
      requires tracked ==> fits && Distinguished(h, fs) && AllGoodRecords(api.server.cfg, api.server.Model(), api.ctx, Model(), scanned)
      requires tracked ==> Progress(api.server.cfg, before, api.server.Model(), api.ctx, start, Model(), scanned, 0, false)
      requires !api.failed && fits ==> PushedAs(PushScanned(h, api.ctx, start, scanned[..0]), api)
      requires !api.failed && fits ==> FitsAll(api.server.cfg, api.server.Db(), api.ctx, Model(), scanned)
      modifies this`records, api, api.server
      ensures api.Valid() && api.failed == (old(api.failed) || refused) && (old(api.lost) ==> api.lost)
      ensures Missing(Model()) == Missing(start.client)
      ensures !api.lost && tracked ==>
        Progress(api.server.cfg, before, api.server.Model(), api.ctx, start, Model(), scanned, |scanned|, refused)
      ensures !api.failed && fits ==> PushedAs(PushScanned(h, api.ctx, start, scanned[..|scanned|]), api)
      ensures Settled(h, old(Model()), scanned) ==> Model() == old(Model()) && unchanged(api) && unchanged(api.server)
    {
      ghost var settled := Settled(h, Model(), scanned);
      refused := false;
      for i := 0 to |scanned|
        invariant api.Valid() && api.failed == (old(api.failed) || refused) && (old(api.lost) ==> api.lost)
        invariant Missing(Model()) == Missing(start.client)
        invariant !api.lost && tracked ==>
          && Progress(api.server.cfg, before, api.server.Model(), api.ctx, start, Model(), scanned, i, refused)
          && AllGoodRecords(api.server.cfg, api.server.Model(), api.ctx, Model(), scanned)
        invariant !api.failed && fits ==> PushedAs(PushScanned(h, api.ctx, start, scanned[..i]), api)
        invariant !api.failed && fits ==> FitsAll(api.server.cfg, api.server.Db(), api.ctx, Model(), scanned)
        invariant settled ==> Model() == old(Model()) && unchanged(api) && unchanged(api.server)
      {
        var r := PushNext(api, scanned, i, batchSize, start, before, fits, tracked, refused);
        refused := refused || r.Err?;
      }
    }

    /** One turn of the first loop of `push`. */
    method PushNext(api: SyncApi, scanned: seq<Path>, i: nat, batchSize: nat,
                    ghost start: Pair, ghost before: State, ghost fits: bool, ghost tracked: bool, ghost refused: bool)
      returns (r: Result<()>)
      requires api.Valid() && api.server.cfg.hash == h && i < |scanned| && AllPresent(start.client, scanned) && fs == start.client.fs
      requires tracked ==> fits && Distinguished(h, fs)
      requires !api.lost && tracked ==>
        && Progress(api.server.cfg, before, api.server.Model(), api.ctx, start, Model(), scanned, i, refused)
        && AllGoodRecords(api.server.cfg, api.server.Model(), api.ctx, Model(), scanned)
      requires !api.failed && fits ==> PushedAs(PushScanned(h, api.ctx, start, scanned[..i]), api)
      requires !api.failed && fits ==> FitsAll(api.server.cfg, api.server.Db(), api.ctx, Model(), scanned)
      modifies this`records, api, api.server
      ensures api.Valid() && api.failed == (old(api.failed) || r.Err?) && (old(api.lost) ==> api.lost)
      ensures Missing(Model()) == Missing(old(Model()))
      ensures !api.lost && tracked ==>
        && Progress(api.server.cfg, before, api.server.Model(), api.ctx, start, Model(), scanned, i + 1, refused || r.Err?)
        && AllGoodRecords(api.server.cfg, api.server.Model(), api.ctx, Model(), scanned)
      ensures !api.failed && fits ==> PushedAs(PushScanned(h, api.ctx, start, scanned[..i + 1]), api)
      ensures !api.failed && fits ==> FitsAll(api.server.cfg, api.server.Db(), api.ctx, Model(), scanned)
      ensures !NeedsUpload(h, old(Model()), scanned[i]) ==> Model() == old(Model()) && unchanged(api) && unchanged(api.server)
    {
      ScanNext(h, api.ctx, start, scanned, i);
      ghost var mid, client := api.server.Model(), Model();
      r := PushOne(api, scanned[i], batchSize, scanned);
      MissingAs(client, Model(), scanned[i]);
      if !api.lost && tracked {
        NoCollisionFor(api.server.cfg, mid, api.ctx.tenant, fs, scanned[i]);
        ProgressNext(api.server.cfg, before, mid, api.server.Model(), api.ctx, start, client, Model(), scanned, i, refused, r.Ok?);
        GoodAlong(api.server.cfg, api.ctx, mid, client, api.server.Model(), Model(), r.Ok?, scanned[i], scanned);
      }
    }

    /** One file of the tree, in one call or in chunks by its size. */
    method PushOne(api: SyncApi, path: Path, batchSize: nat, ghost scanned: seq<Path>) returns (r: Result<()>)
      requires api.Valid() && api.server.cfg.hash == h && path in fs && path in scanned
      modifies this`records, api, api.server
      ensures api.Valid() && api.failed == (old(api.failed) || r.Err?) && (old(api.lost) ==> api.lost)
      ensures !api.lost && old(GoodRecord(api.server.cfg, api.server.Model(), api.ctx, Model(), path))
              && NoCollision(api.server.cfg, old(api.server.Model().disk), api.ctx.tenant, fs[path]) ==>
                Sweep(api.server.Model(), Model(), r.Ok?)
                == SweepOne(api.server.cfg, api.ctx, old(Sweep(api.server.Model(), Model(), true)), path)
      ensures r.Ok? && old(FitsAll(api.server.cfg, api.server.Db(), api.ctx, Model(), scanned)) ==>
                && PushedAs(PushFile(h, api.ctx, old(Pair(Model(), api.server.files)), path), api)
                && FitsAll(api.server.cfg, api.server.Db(), api.ctx, Model(), scanned)
      ensures (r.Ok? ==> !NeedsUpload(h, Model(), path)) && records - {path} == old(records) - {path}
      ensures r.Err? ==> Model() == old(Model()) || exists id :: Model() == OpenRecord(old(Model()), path, h(old(fs[path])), id)
      ensures !NeedsUpload(h, old(Model()), path) ==>
                r.Ok? && Model() == old(Model()) && unchanged(api) && unchanged(api.server)
    {
      ghost var before := Pair(Model(), api.server.files);
      ghost var db := api.server.Db();
      ghost var s := api.server.Model();
      FitsEach(api.server.cfg, db, api.ctx, Model(), scanned);
      if |fs[path]| < CHUNK_SIZE {
        r := PushSingleFile(api, path);
      } else {
        r := PushSingleFileChunked(api, path, batchSize);
      }
      if !api.lost && NeedsUpload(h, before.client, path) && GoodRecord(api.server.cfg, s, api.ctx, before.client, path)
         && NoCollision(api.server.cfg, s.disk, api.ctx.tenant, fs[path]) {
        if |fs[path]| < CHUNK_SIZE {
          OfferedIsSwept(api.server.cfg, s, api.server.Model(), api.ctx, before.client, Model(), path, r.Ok?);
        } else {
          ServedIsSwept(api.server.cfg, s, api.server.Model(), api.ctx, before.client, Model(), path, r.Ok?);
        }
      }
      if r.Ok? && FitsAll(api.server.cfg, db, api.ctx, before.client, scanned) {
        StillFits(api.server.cfg, db, api.server.Db(), api.ctx, before, path, scanned);
      }
    }

    /** The second loop of `push`, which runs whatever has failed before. */
    method PushMissingFiles(api: SyncApi)
      requires api.Valid()
      modifies this`records, api, api.server
      ensures api.Valid() && (old(api.failed) ==> api.failed) && (old(api.lost) ==> api.lost)
      ensures !api.lost ==> api.failed == old(api.failed)
      ensures SameRows(old(api.server.files), api.server.files)
      ensures api.server.Model() == old(api.server.Model()).(db := old(api.server.Db()).(files := api.server.files))
      ensures api.Heard() ==> PushedAs(PushMissing(api.ctx, old(Pair(Model(), api.server.files))), api)
      ensures !api.lost ==> forall p :: p in old(Missing(Model())) ==>
                p !in records
                && (MakeKey(api.ctx.tenant, p) in api.server.files ==> api.server.files[MakeKey(api.ctx.tenant, p)].isDeleted)
      ensures Missing(old(Model())) == {} ==> Model() == old(Model()) && unchanged(api) && unchanged(api.server)
    {
      ghost var start, before := Pair(Model(), api.server.files), api.server.Model();
      var listed := records.Keys;
      ghost var nothing := Missing(start.client) == {};
      DropNone(api.ctx, start);
      while listed != {}
        invariant api.Valid() && (old(api.failed) ==> api.failed) && (old(api.lost) ==> api.lost)
        invariant !api.lost ==> api.failed == old(api.failed)
        invariant SameRows(start.files, api.server.files)
        invariant api.server.Model() == before.(db := before.db.(files := api.server.files))
        invariant listed <= start.client.records.Keys
        invariant api.Heard() ==> PushedAs(DropExcept(api.ctx, start, listed), api)
        invariant nothing ==> Model() == start.client && unchanged(api) && unchanged(api.server)
        decreases |listed|
      {
        var path :| path in listed;
        DeleteIfMissing(api, path, start, listed);
        listed := listed - {path};
      }
      MissingAreMarked(api.ctx, start);
    }

    /** One turn of the second loop of `push`. */
    method DeleteIfMissing(api: SyncApi, path: Path, ghost start: Pair, ghost listed: set<Path>)
      requires api.Valid() && path in listed && listed <= start.client.records.Keys && fs == start.client.fs
      modifies this`records, api, api.server
      ensures api.Valid() && (old(api.failed) ==> api.failed) && (old(api.lost) ==> api.lost)
      ensures !api.lost ==> api.failed == old(api.failed)
      ensures SameRows(old(api.server.files), api.server.files)
      ensures api.server.Model() == old(api.server.Model()).(db := old(api.server.Db()).(files := api.server.files))
      ensures api.Heard() && old(PushedAs(DropExcept(api.ctx, start, listed), api)) ==>
                PushedAs(DropExcept(api.ctx, start, listed - {path}), api)
      ensures Missing(start.client) == {} ==> Model() == old(Model()) && unchanged(api) && unchanged(api.server)
    {
      assert path in start.client.records.Keys;
      DropNext(api.ctx, start, listed, path);
      if path !in fs {
        var r := DeleteFile(api, path);
      }
    }

    /** `download_to_file` */
    method DownloadToFile(api: SyncApi, src: Path, dest: Path) returns (r: Result<()>, ghost resp: Response)
      requires api.Valid()
      modifies this`fs, api
      ensures api.Valid() && api.failed == (old(api.failed) || r.Err?) && (old(api.lost) ==> api.lost)
      ensures fs == Download(old(fs), dest, resp) && (r.Ok? <==> resp.Delivered? && resp.whole)
      ensures api.Heard() ==>
                resp == Delivery(ServeFile(api.server.cfg, api.server.Model(), api.ctx, src, SizeAt(old(fs), dest)))
    {
      var bytesOnFile := if dest in fs then |fs[dest]| else 0;
      var got, whole := api.GetFile(src, bytesOnFile);
      if got.Err? { return Err(got.error), Refused; }
      var (resumed, stream) := got.value;
      if resumed {
        fs := fs[dest := (if dest in fs then fs[dest] else []) + stream];
      } else {
        fs := fs[dest := stream];
      }
      return if whole then Ok(()) else Err(Network), Delivered(resumed, stream, whole);
    }

    /** The part both branches of `pull_single_file` share: download, verify, rename. */
    method FetchVerified(api: SyncApi, meta: FileMeta, dest: Path) returns (r: Result<()>, ghost resp: Response)
      requires api.Valid() && api.server.cfg.hash == h
      modifies this`fs, api
      ensures api.Valid() && (old(api.failed) ==> api.failed) && (old(api.lost) ==> api.lost)
      ensures (fs, r.Ok?) == Fetch(h, old(fs), dest, meta.contentHash, resp)
      ensures api.Heard() ==>
                resp == Delivery(ServeFile(api.server.cfg, api.server.Model(), api.ctx, meta.path, SizeAt(old(fs), PartOf(dest))))
      ensures var stored := StoredAt(api.server.cfg, api.server.Model(), api.ctx, meta.path);
              api.Heard() && stored.Some? && h(stored.value) == meta.contentHash && GoodStart(old(fs), PartOf(dest), stored.value) ==>
                r.Ok? && fs == (old(fs) - {PartOf(dest)})[dest := stored.value]
    {
      ghost var stored := StoredAt(api.server.cfg, api.server.Model(), api.ctx, meta.path);
      if stored.Some? && GoodStart(fs, PartOf(dest), stored.value) {
        ServedThenFetched(api.server.cfg, api.server.Model(), api.ctx, fs, meta.path, dest);
      }
      var part := PartOf(dest);
      r, resp := DownloadToFile(api, meta.path, part);
      if r.Err? { return; }
      var content := fs[part];
      fs := fs - {part};
      if h(content) != meta.contentHash { return Err(HashMismatch), resp; }
      fs := fs[dest := content];
    }

    /** `pull_single_file` */
    method PullSingleFile(api: SyncApi, meta: FileMeta, timestamp: string) returns (r: Result<()>, ghost resp: Response)
      requires api.Valid() && api.server.cfg.hash == h
      modifies this, api
      ensures api.Valid() && (old(api.failed) ==> api.failed) && (old(api.lost) ==> api.lost)
      ensures (Model(), r.Ok?) == PullFile(h, old(Model()), meta, resp, timestamp)
      ensures api.Heard() ==> Model() == PullOne(api.server.cfg, api.server.Model(), api.ctx, old(Model()), meta, timestamp)
      ensures UpToDate(old(Model()), meta) ==> r.Ok? && Model() == old(Model())
      ensures var stored, copy := StoredAt(api.server.cfg, api.server.Model(), api.ctx, meta.path), ConflictPath(meta.path, timestamp);
              api.Heard() && BothChanged(h, old(Model()), meta)
              && stored.Some? && h(stored.value) == meta.contentHash && GoodStart(old(fs), PartOf(copy), stored.value) ==>
                r.Ok? && Model() == Client((old(fs) - {PartOf(copy)})[copy := stored.value], old(records))
      ensures var stored := StoredAt(api.server.cfg, api.server.Model(), api.ctx, meta.path);
              api.Heard() && !UpToDate(old(Model()), meta) && !BothChanged(h, old(Model()), meta)
              && stored.Some? && h(stored.value) == meta.contentHash && GoodStart(old(fs), PartOf(meta.path), stored.value) ==>
                r.Ok? && Model() == Client((old(fs) - {PartOf(meta.path)})[meta.path := stored.value],
                  old(records)[meta.path := SyncRecord(meta.path, meta.contentHash, meta.version, None)])
    {
      if meta.path in records {
        var record := records[meta.path];
        if record.serverVersion == meta.version { return Ok(()), Refused; }
        if record.serverVersion < meta.version && meta.path in fs {
          var hash := h(fs[meta.path]);
          if hash != record.localHash {
            r, resp := FetchVerified(api, meta, ConflictPath(meta.path, timestamp));
            return;
          }
        }
      }
      r, resp := FetchVerified(api, meta, meta.path);
      if r.Err? { return; }
      records := records[meta.path := SyncRecord(meta.path, meta.contentHash, meta.version, None)];
    }

    /** `pull`: a file that fails is skipped. */
    method Pull(api: SyncApi, clock: nat -> string) returns (r: Result<()>, ghost keys: seq<string>, ghost list: seq<FileMeta>)
      requires api.Valid() && api.server.cfg.hash == h
      modifies this, api
      ensures api.Valid() && (old(api.failed) ==> api.failed) && (old(api.lost) ==> api.lost) && (r.Err? ==> !api.Heard())
      ensures r.Err? ==> Model() == old(Model())
      ensures api.Heard() ==>
                && Enumerates(Listed(api.server.files, api.ctx.tenant), keys, list)
                && Model() == PullAll(api.server.cfg, api.server.Model(), api.ctx, old(Model()), list, clock)
    {
      var listed;
      listed, keys := api.ListFiles();
      list := [];
      if listed.Err? { return Err(listed.error), keys, list; }
      var metas := listed.value;
      list := metas;
      for k := 0 to |metas|
        invariant api.Valid() && (old(api.failed) ==> api.failed) && (old(api.lost) ==> api.lost)
        invariant api.Heard() ==>
          Model() == PullAll(api.server.cfg, api.server.Model(), api.ctx, old(Model()), metas[..k], clock)
      {
        PullAllNext(api.server.cfg, api.server.Model(), api.ctx, old(Model()), metas, k, clock);
        var pulled, resp := PullSingleFile(api, metas[k], clock(k));
      }
      assert metas[..|metas|] == metas;
      return Ok(()), keys, list;
    }
  }

  lemma FinishedUpload(cfg: Config, s: State, ctx: Ctx, id: UploadId, path: Path, file: Bytes)
    requires Inv(cfg, s) && Resumable(cfg, s, ctx, id, file) && s.db.uploads[id].path == path
    ensures var s' := Finalized(cfg, s, ctx, s.db.uploads[id], file).0;
            && id !in s'.db.uploads && s'.nextId == s.nextId && LiveWith(s'.db.files, ctx.tenant, path, cfg.hash(file))
            && NoCollision(cfg, s'.disk, ctx.tenant, file) && Stored(cfg, s'.disk, ctx.tenant, cfg.hash(file))
  {
    assert UploadOk(s.db, s.disk, s.nextId, id);
  }

  /**
   * A chunked push of a recorded file that is interrupted, in whatever way, and tried again: if the
   * upload the record names is still there, and nothing is lost the second time, that very upload is
   * finished, no other is opened, and the file is live with its bytes stored.
   */
  method InterruptedThenResumed(client: SyncClient, api: SyncApi, again: SyncApi, path: Path, batchSize: nat, nextBatchSize: nat)
    returns (first: Result<()>, second: Result<()>, ghost mid: State, ghost between: Client)
    requires api.Valid() && again.Valid() && again != api && again.server == api.server && again.ctx == api.ctx && !again.lost
    requires api.server.cfg.hash == client.h && path in client.fs && path in client.records && NeedsUpload(client.h, client.Model(), path)
    requires NoCollision(api.server.cfg, api.server.Model().disk, api.ctx.tenant, client.fs[path])
    requires CanResume(api.server.cfg, api.server.Model(), api.ctx, client.Model(), path)
    modifies client`records, api, again, api.server
    ensures client.fs == old(client.fs) && path in between.records
    ensures first.Err? ==>
              && between.records[path].localHash == old(client.records[path]).localHash
              && between.records[path].serverVersion == old(client.records[path]).serverVersion
    ensures first.Err? && Pending(mid.db, api.ctx, between, path) && !again.lost ==>
              var id, file := between.records[path].uploadId.value, client.fs[path];
              && second.Ok? && api.server.Model() == Finalized(api.server.cfg, mid, api.ctx, mid.db.uploads[id], file).0
              && id !in api.server.uploads && api.server.nextId == mid.nextId
              && LiveWith(api.server.files, api.ctx.tenant, path, client.h(file))
              && Stored(api.server.cfg, api.server.Model().disk, api.ctx.tenant, client.h(file))
              && !NeedsUpload(client.h, client.Model(), path)
  {
    first := client.PushSingleFileChunked(api, path, batchSize);
    mid, between := api.server.Model(), client.Model();
    second := client.PushSingleFileChunked(again, path, nextBatchSize);
    if first.Err? && Pending(mid.db, api.ctx, between, path) {
      FinishedUpload(api.server.cfg, mid, api.ctx, between.records[path].uploadId.value, path, client.fs[path]);
    }
  }

  /** What was left out of the push does not come back from the pull. */
  lemma LeftOutIsMissed(cfg: Config, s: State, ctx: Ctx, tree: map<Path, Bytes>, scanned: seq<Path>,
                        keys: seq<string>, list: seq<FileMeta>, clock: nat -> string)
    requires Shows(s.db.files, ctx.tenant, scanned, true) && Elements(scanned) == tree.Keys && NoPartNames(tree)
    requires Enumerates(Listed(s.db.files, ctx.tenant), keys, list)
    ensures PullAll(cfg, s, ctx, Client(map[], map[]), list, clock).fs != tree
  {
    var p :| p in scanned && MakeKey(ctx.tenant, p) !in s.db.files;
    assert p in Elements(scanned);
    forall k | 0 <= k < |list| ensures list[k].path in tree && keys[k] == MakeKey(ctx.tenant, list[k].path) && keys[k] in s.db.files {
      assert keys[k] in Listed(s.db.files, ctx.tenant);
      assert list[k].path in Elements(scanned);
    }
    forall j, k | 0 <= j < k < |list| ensures list[j].path != list[k].path {
      assert keys[j] != keys[k];
    }
    UnlistedStaysAway(cfg, s, ctx, list, clock, p);
  }

  /**
   * The round trip through the real thing: one client pushes its whole tree to a tenant without
   * rows, another pulls into an empty directory. With no message lost, the trees are equal if and
   * only if the files pass validation and what of them is new to the server fits the quota.
   */
  method RoundTrip(api: SyncApi, a: SyncClient, b: SyncClient, scanned: seq<Path>, batchSize: nat, clock: nat -> string)
    requires api.Valid() && !api.failed && a != b && api.server.cfg.hash == a.h == b.h
    requires a.records == map[] && b.Model() == Client(map[], map[])
    requires Elements(scanned) == a.fs.Keys && AllPresent(a.Model(), scanned) && NoDuplicates(scanned)
    requires NoRows(api.server.files, api.ctx.tenant)
    requires Distinguished(a.h, a.fs) && NoPartNames(a.fs)
    modifies a, b, api, api.server
    ensures a.fs == old(a.fs)
    ensures !api.lost ==>
              (b.fs == a.fs <==> Welcome(api.server.cfg, old(api.server.Model()), api.ctx.tenant, old(a.Model()), scanned))
  {
    ghost var tree, files := a.fs, api.server.files;
    a.Push(api, scanned, batchSize);
    ghost var failed, s := api.failed, api.server.Model();
    var r, keys, list := b.Pull(api, clock);
    if !api.lost {
      if failed {
        LeftOutIsMissed(api.server.cfg, s, api.ctx, tree, scanned, keys, list, clock);
      } else {
        PushThenPull(api.server.cfg, s, api.ctx, tree, files, scanned, keys, list, clock);
      }
    }
  }

  /** The second loop of `push` with these records still to be looked at. */
  ghost function DropExcept(ctx: Ctx, w: Pair, listed: set<Path>): Pair {
    Pair(w.client.(records := w.client.records - (Missing(w.client) - listed)),
         MarkAll(w.files, ctx.tenant, Missing(w.client) - listed))
  }

  lemma MissingAreMarked(ctx: Ctx, w: Pair)
    ensures var w' := PushMissing(ctx, w);
            forall p :: p in Missing(w.client) ==>
              p !in w'.client.records && (MakeKey(ctx.tenant, p) in w'.files ==> w'.files[MakeKey(ctx.tenant, p)].isDeleted)
  {
  }

  lemma DropNone(ctx: Ctx, w: Pair)
    ensures DropExcept(ctx, w, w.client.records.Keys) == w
    ensures DropExcept(ctx, w, {}) == PushMissing(ctx, w)
  {
    assert Missing(w.client) - w.client.records.Keys == {};
    assert Missing(w.client) - {} == Missing(w.client);
    assert w.client.records - {} == w.client.records;
  }

  lemma DropNext(ctx: Ctx, w: Pair, listed: set<Path>, path: Path)
    requires path in listed && listed <= w.client.records.Keys
    ensures var before, after := DropExcept(ctx, w, listed), DropExcept(ctx, w, listed - {path});
            after == if path in w.client.fs then before
                     else Pair(before.client.(records := before.client.records - {path}),
                               MarkDeleted(before.files, MakeKey(ctx.tenant, path)))
  {
    var done := Missing(w.client) - listed;
    if path in w.client.fs {
      assert Missing(w.client) - (listed - {path}) == done;
    } else {
      assert Missing(w.client) - (listed - {path}) == done + {path};
      MarkOneMore(w.files, ctx.tenant, done, path);
      assert w.client.records - (done + {path}) == w.client.records - done - {path};
    }
  }
}
