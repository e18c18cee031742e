/** When the server takes a push, with every message delivered: validation and quota decide, nothing else. */
module Acceptance {
  import opened Prelude
  import opened Sums
  import opened Chunks
  import opened Tables
  import opened Quota
  import opened Machine
  import opened Invariants
  import opened Integrity
  import opened Service
  import opened Api
  import opened ClientModel
  import opened PushModel
  import opened PullModel
  import opened Resume

  // ---- one file ----

  predicate ValidFile(cfg: Config, path: Path, file: Bytes) {
    |file| < CHUNK_SIZE || ValidateRequest(cfg, RequestFor(cfg, path, file, ChunkCount(|file|))).Ok?
  }

  ghost predicate Accepts(cfg: Config, s: State, ctx: Ctx, path: Path, file: Bytes) {
    ValidFile(cfg, path, file) && QuotaAllows(cfg, s.db, s.disk, ctx.tenant, cfg.hash(file), |file|)
  }

  /** The server after a file was offered: as after a direct create, whatever its size, or as before. */
  ghost function Offered(cfg: Config, s: State, ctx: Ctx, path: Path, file: Bytes): State {
    if !Accepts(cfg, s, ctx, path, file) then s
    else
      CreateFile(cfg, s, ctx, path, file).0.(nextId := s.nextId + if |file| < CHUNK_SIZE then 0 else 1)
  }

  lemma NoCollisionFor(cfg: Config, s: State, t: Tenant, tree: map<Path, Bytes>, path: Path)
    requires BlobsNamed(cfg, s.disk) && Distinguished(cfg.hash, tree) && path in tree
    ensures NoCollision(cfg, s.disk, t, tree[path])
  {
  }

  lemma AskedIff(cfg: Config, s: State, ctx: Ctx, path: Path, file: Bytes)
    requires |file| >= CHUNK_SIZE
    ensures AskUpload(cfg, s, ctx, RequestFor(cfg, path, file, ChunkCount(|file|))).1.Ok? <==> Accepts(cfg, s, ctx, path, file)
    ensures !Accepts(cfg, s, ctx, path, file) ==> AskUpload(cfg, s, ctx, RequestFor(cfg, path, file, ChunkCount(|file|))).0 == s
  {
  }

  /** An upload just opened can be finished, which comes to a direct create. */
  lemma AskedThenFinished(cfg: Config, s: State, ctx: Ctx, path: Path, file: Bytes)
    requires Inv(cfg, s) && NoCollision(cfg, s.disk, ctx.tenant, file) && |file| >= CHUNK_SIZE && Accepts(cfg, s, ctx, path, file)
    ensures var (s', r) := AskUpload(cfg, s, ctx, RequestFor(cfg, path, file, ChunkCount(|file|)));
            && r.Ok? && Resumable(cfg, s', ctx, r.value, file)
            && Finalized(cfg, s', ctx, s'.db.uploads[r.value], file).0 == Offered(cfg, s, ctx, path, file)
  {
    FreshUpload(cfg, s, ctx, RequestFor(cfg, path, file, ChunkCount(|file|)));
    FreshThenFinalized(cfg, s, ctx, path, file, ChunkCount(|file|));
  }

  lemma AskedOutcome(cfg: Config, s: State, ctx: Ctx, path: Path, file: Bytes)
    requires Inv(cfg, s)
    ensures |file| >= CHUNK_SIZE && NoCollision(cfg, s.disk, ctx.tenant, file) ==>
              var (s', r) := AskUpload(cfg, s, ctx, RequestFor(cfg, path, file, ChunkCount(|file|)));
              && (r.Ok? <==> Accepts(cfg, s, ctx, path, file))
              && (r.Err? ==> s' == Offered(cfg, s, ctx, path, file))
              && (r.Ok? ==> Resumable(cfg, s', ctx, r.value, file)
                            && Finalized(cfg, s', ctx, s'.db.uploads[r.value], file).0 == Offered(cfg, s, ctx, path, file))
  {
    if |file| >= CHUNK_SIZE {
      AskedIff(cfg, s, ctx, path, file);
      if NoCollision(cfg, s.disk, ctx.tenant, file) && Accepts(cfg, s, ctx, path, file) { AskedThenFinished(cfg, s, ctx, path, file); }
    }
  }

  // ---- a whole push ----

  /** Those of these contents that are not stored yet, with their sizes. */
  ghost function NewBytes(cfg: Config, disk: Disk, t: Tenant, contents: set<Bytes>): map<Bytes, nat> {
    map x | x in contents && !Stored(cfg, disk, t, cfg.hash(x)) :: |x|
  }

  /** They fit in what usage and reservations leave of the quota; what is stored needs no room. */
  ghost predicate Fits(cfg: Config, s: State, t: Tenant, contents: set<Bytes>) {
    NewBytes(cfg, s.disk, t, contents) == map[]
    || UsageOf(s.db, t) + Reserved(s.db, t) + Sum(NewBytes(cfg, s.disk, t, contents)) <= cfg.quota
  }

  /** What a push of these paths uploads. */
  function ToUpload(h: Hasher, c: Client, paths: seq<Path>): set<Bytes>
    requires AllPresent(c, paths)
  {
    set i | 0 <= i < |paths| && NeedsUpload(h, c, paths[i]) :: c.fs[paths[i]]
  }

  predicate AllValid(cfg: Config, c: Client, paths: seq<Path>)
    requires AllPresent(c, paths)
  {
    forall i :: 0 <= i < |paths| && NeedsUpload(cfg.hash, c, paths[i]) ==> ValidFile(cfg, paths[i], c.fs[paths[i]])
  }

  /** The server has room for all of it, and no objection to any. */
  ghost predicate Welcome(cfg: Config, s: State, t: Tenant, c: Client, paths: seq<Path>)
    requires AllPresent(c, paths)
  {
    AllValid(cfg, c, paths) && Fits(cfg, s, t, ToUpload(cfg.hash, c, paths))
  }

  /** The server after it took these contents, as far as its later decisions depend on it. */
  ghost predicate Took(cfg: Config, s: State, s': State, t: Tenant, contents: set<Bytes>) {
    && s'.db.uploads == s.db.uploads
    && UsageOf(s'.db, t) == UsageOf(s.db, t) + Sum(NewBytes(cfg, s.disk, t, contents))
    && (forall hash :: Stored(cfg, s'.disk, t, hash) <==>
          Stored(cfg, s.disk, t, hash) || exists x :: x in contents && cfg.hash(x) == hash)
  }

  ghost predicate NoTwins(cfg: Config, contents: set<Bytes>, x: Bytes) {
    forall y :: y in contents && cfg.hash(y) == cfg.hash(x) ==> y == x
  }

  lemma TookNothing(cfg: Config, s: State, t: Tenant)
    ensures Took(cfg, s, s, t, {}) && Fits(cfg, s, t, {})
  {
    assert NewBytes(cfg, s.disk, t, {}) == map[];
  }

  lemma OneMoreNew(cfg: Config, disk: Disk, t: Tenant, contents: set<Bytes>, x: Bytes)
    ensures var before, now := NewBytes(cfg, disk, t, contents), NewBytes(cfg, disk, t, contents + {x});
            if x in contents || Stored(cfg, disk, t, cfg.hash(x)) then now == before
            else x in now && Sum(now) == Sum(before) + |x|
  {
    var before, now := NewBytes(cfg, disk, t, contents), NewBytes(cfg, disk, t, contents + {x});
    if x in contents || Stored(cfg, disk, t, cfg.hash(x)) {
      assert now == before;
    } else {
      assert now == before[x := |x|];
      SumPut(before, x, |x|);
    }
  }

  /** The next content is let in exactly when all so far and this one fit the room there was at the start. */
  lemma NextFitsIff(cfg: Config, s: State, s': State, t: Tenant, contents: set<Bytes>, x: Bytes)
    requires Took(cfg, s, s', t, contents) && Fits(cfg, s, t, contents) && NoTwins(cfg, contents, x)
    ensures Fits(cfg, s, t, contents + {x}) <==> QuotaAllows(cfg, s'.db, s'.disk, t, cfg.hash(x), |x|)
  {
    OneMoreNew(cfg, s.disk, t, contents, x);
    assert Reservations(s'.db, t) == Reservations(s.db, t);
    assert Stored(cfg, s'.disk, t, cfg.hash(x)) <==> x in contents || Stored(cfg, s.disk, t, cfg.hash(x));
  }

  lemma TakesNext(cfg: Config, s: State, s': State, ctx: Ctx, contents: set<Bytes>, path: Path, x: Bytes)
    requires cfg.Valid() && Inv(cfg, s') && Took(cfg, s, s', ctx.tenant, contents) && NoTwins(cfg, contents, x)
    requires Accepts(cfg, s', ctx, path, x)
    ensures Took(cfg, s, Offered(cfg, s', ctx, path, x), ctx.tenant, contents + {x})
  {
    var t := ctx.tenant;
    OneMoreNew(cfg, s.disk, t, contents, x);
    CreateKeepsQuota(cfg, ctx, s'.db, s'.disk, path, x);
    var s'' := Offered(cfg, s', ctx, path, x);
    assert Stored(cfg, s'.disk, t, cfg.hash(x)) <==> x in contents || Stored(cfg, s.disk, t, cfg.hash(x));
    forall hash ensures Stored(cfg, s''.disk, t, hash) <==>
      Stored(cfg, s.disk, t, hash) || exists y :: y in contents + {x} && cfg.hash(y) == hash
    {
      assert x in contents + {x};
      assert Stored(cfg, s''.disk, t, hash) <==> Stored(cfg, s'.disk, t, hash) || hash == cfg.hash(x);
      if y :| y in contents && cfg.hash(y) == hash { assert y in contents + {x}; }
    }
  }

  lemma FewerFit(cfg: Config, s: State, t: Tenant, contents: set<Bytes>, x: Bytes)
    requires Fits(cfg, s, t, contents + {x})
    ensures Fits(cfg, s, t, contents)
  {
    SumSubmap(NewBytes(cfg, s.disk, t, contents), NewBytes(cfg, s.disk, t, contents + {x}));
    OneMoreNew(cfg, s.disk, t, contents, x);
    if NewBytes(cfg, s.disk, t, contents) != map[] {
      var y :| y in NewBytes(cfg, s.disk, t, contents);
      assert y in NewBytes(cfg, s.disk, t, contents + {x});
    }
  }

  // ---- along the scanned paths ----

  /** A path still needs uploading exactly if it did at the start and has not been reached. */
  lemma {:induction false} StillNeeded(h: Hasher, ctx: Ctx, w: Pair, paths: seq<Path>, p: Path)
    requires AllPresent(w.client, paths) && p in w.client.fs
    ensures NeedsUpload(h, PushScanned(h, ctx, w, paths).client, p) <==> NeedsUpload(h, w.client, p) && p !in paths
    ensures var records := PushScanned(h, ctx, w, paths).client.records;
            p in records && records[p].uploadId.Some? ==> p in w.client.records && records[p] == w.client.records[p]
  {
    if paths != [] {
      var n := |paths| - 1;
      StillNeeded(h, ctx, w, paths[..n], p);
      assert p in paths <==> p in paths[..n] || p == paths[n];
      StillNeeded(h, ctx, w, paths[..n], paths[n]);
    }
  }

  lemma UploadsNext(h: Hasher, c: Client, paths: seq<Path>, i: nat)
    requires AllPresent(c, paths) && i < |paths|
    ensures ToUpload(h, c, paths[..i + 1])
            == ToUpload(h, c, paths[..i]) + if NeedsUpload(h, c, paths[i]) then {c.fs[paths[i]]} else {}
  {
    var before, now := ToUpload(h, c, paths[..i]), ToUpload(h, c, paths[..i + 1]);
    forall x | x in before ensures x in now {
      var k :| 0 <= k < i && NeedsUpload(h, c, paths[..i][k]) && c.fs[paths[..i][k]] == x;
      assert paths[..i + 1][k] == paths[k];
    }
    forall x | x in now ensures x in before || (NeedsUpload(h, c, paths[i]) && x == c.fs[paths[i]]) {
      var k :| 0 <= k < i + 1 && NeedsUpload(h, c, paths[..i + 1][k]) && c.fs[paths[..i + 1][k]] == x;
      if k < i { assert paths[..i][k] == paths[k]; }
    }
    if NeedsUpload(h, c, paths[i]) { assert paths[..i + 1][i] == paths[i]; }
  }

  /** Part-way: all went well so far exactly if what was reached is valid and fits. */
  ghost predicate Tracks(cfg: Config, s: State, s': State, t: Tenant, valid: bool, contents: set<Bytes>, failed: bool) {
    && (failed <==> !(valid && Fits(cfg, s, t, contents)))
    && (!failed ==> Took(cfg, s, s', t, contents))
  }

  lemma TracksOneMore(cfg: Config, s: State, mid: State, s': State, ctx: Ctx, valid: bool, contents: set<Bytes>,
                      path: Path, x: Bytes, failed: bool, ok: bool)
    requires cfg.Valid() && Inv(cfg, mid) && NoTwins(cfg, contents, x)
    requires Tracks(cfg, s, mid, ctx.tenant, valid, contents, failed)
    requires !failed ==> (ok <==> Accepts(cfg, mid, ctx, path, x)) && s' == Offered(cfg, mid, ctx, path, x)
    ensures Tracks(cfg, s, s', ctx.tenant, valid && ValidFile(cfg, path, x), contents + {x}, failed || !ok)
  {
    if failed {
      if Fits(cfg, s, ctx.tenant, contents + {x}) { FewerFit(cfg, s, ctx.tenant, contents, x); }
    } else {
      NextFitsIff(cfg, s, mid, ctx.tenant, contents, x);
      if ok { TakesNext(cfg, s, mid, ctx, contents, path, x); }
    }
  }

  lemma NoTwinsAmong(cfg: Config, c: Client, paths: seq<Path>, p: Path)
    requires AllPresent(c, paths) && p in c.fs && Distinguished(cfg.hash, c.fs)
    ensures NoTwins(cfg, ToUpload(cfg.hash, c, paths), c.fs[p])
  {
  }

  lemma ValidNext(cfg: Config, c: Client, paths: seq<Path>, i: nat)
    requires AllPresent(c, paths) && i < |paths|
    ensures AllValid(cfg, c, paths[..i + 1]) <==>
              AllValid(cfg, c, paths[..i]) && (NeedsUpload(cfg.hash, c, paths[i]) ==> ValidFile(cfg, paths[i], c.fs[paths[i]]))
  {
    assert forall k :: 0 <= k < i ==> paths[..i + 1][k] == paths[..i][k] == paths[k];
    assert paths[..i + 1][i] == paths[i];
  }

  /** A path reached before adds nothing. */
  lemma ReachedBefore(cfg: Config, c: Client, paths: seq<Path>, p: Path)
    requires AllPresent(c, paths) && p in paths && NeedsUpload(cfg.hash, c, p)
    ensures c.fs[p] in ToUpload(cfg.hash, c, paths)
    ensures AllValid(cfg, c, paths) ==> ValidFile(cfg, p, c.fs[p])
  {
    var k :| 0 <= k < |paths| && paths[k] == p;
    assert c.fs[paths[k]] in ToUpload(cfg.hash, c, paths);
  }

  /** What happens at one path, with nothing lost and nothing to resume. */
  ghost predicate Serves(cfg: Config, s: State, s': State, ctx: Ctx, c: Client, path: Path, ok: bool)
    requires path in c.fs
  {
    if NeedsUpload(cfg.hash, c, path)
    then (ok <==> Accepts(cfg, s, ctx, path, c.fs[path])) && s' == Offered(cfg, s, ctx, path, c.fs[path])
    else ok && s' == s
  }

  ghost predicate TracksPaths(cfg: Config, s: State, s': State, t: Tenant, c: Client, reached: seq<Path>, failed: bool)
    requires AllPresent(c, reached)
  {
    Tracks(cfg, s, s', t, AllValid(cfg, c, reached), ToUpload(cfg.hash, c, reached), failed)
  }

  lemma TracksNothing(cfg: Config, s: State, t: Tenant, c: Client)
    ensures TracksPaths(cfg, s, s, t, c, [], false)
  {
    TookNothing(cfg, s, t);
    assert ToUpload(cfg.hash, c, []) == {};
  }

  lemma TracksNext(cfg: Config, s: State, mid: State, s': State, ctx: Ctx, w: Pair, paths: seq<Path>, i: nat, failed: bool, ok: bool)
    requires cfg.Valid() && Inv(cfg, mid) && AllPresent(w.client, paths) && i < |paths| && Distinguished(cfg.hash, w.client.fs)
    requires TracksPaths(cfg, s, mid, ctx.tenant, w.client, paths[..i], failed)
    requires !failed ==> Serves(cfg, mid, s', ctx, PushScanned(cfg.hash, ctx, w, paths[..i]).client, paths[i], ok)
    ensures TracksPaths(cfg, s, s', ctx.tenant, w.client, paths[..i + 1], failed || !ok)
  {
    var c, p, x := w.client, paths[i], w.client.fs[paths[i]];
    var valid, contents := AllValid(cfg, c, paths[..i]), ToUpload(cfg.hash, c, paths[..i]);
    UploadsNext(cfg.hash, c, paths, i);
    ValidNext(cfg, c, paths, i);
    StillNeeded(cfg.hash, ctx, w, paths[..i], p);
    NoTwinsAmong(cfg, c, paths[..i], p);
    if NeedsUpload(cfg.hash, c, p) {
      if !failed && p in paths[..i] {
        ReachedBefore(cfg, c, paths[..i], p);
        assert contents + {x} == contents;
      } else {
        TracksOneMore(cfg, s, mid, s', ctx, valid, contents, p, x, failed, ok);
      }
    } else {
      assert contents + {} == contents;
    }
  }

  // ---- what a push that fails leaves out ----

  /** The tenant's rows are rows of these paths. */
  ghost predicate OnlyThese(files: map<string, FileMeta>, t: Tenant, paths: seq<Path>) {
    forall key :: key in files && InNamespace(key, t) ==>
      files[key].path in paths && key == MakeKey(t, files[key].path)
  }

  predicate LeavesOut(files: map<string, FileMeta>, t: Tenant, paths: seq<Path>) {
    exists p :: p in paths && MakeKey(t, p) !in files
  }

  lemma OnlyTheseNext(files: map<string, FileMeta>, ctx: Ctx, paths: seq<Path>, i: nat, size: nat, hash: Hash)
    requires i < |paths| && OnlyThese(files, ctx.tenant, paths[..i])
    ensures OnlyThese(files, ctx.tenant, paths[..i + 1])
    ensures OnlyThese(WithRow(files, ctx, paths[i], size, hash), ctx.tenant, paths[..i + 1])
  {
    assert paths[..i + 1] == paths[..i] + [paths[i]];
  }

  lemma NotReachedYet(files: map<string, FileMeta>, t: Tenant, paths: seq<Path>, i: nat)
    requires NoDuplicates(paths) && i < |paths| && OnlyThese(files, t, paths[..i])
    ensures MakeKey(t, paths[i]) !in files
  {
    if MakeKey(t, paths[i]) in files {
      KeyInNamespace(t, paths[i]);
      KeyInjective(t, t, paths[i], files[MakeKey(t, paths[i])].path);
    }
  }

  lemma StillLeftOut(files: map<string, FileMeta>, ctx: Ctx, paths: seq<Path>, i: nat, size: nat, hash: Hash)
    requires NoDuplicates(paths) && i < |paths| && LeavesOut(files, ctx.tenant, paths[..i])
    ensures LeavesOut(files, ctx.tenant, paths[..i + 1])
    ensures LeavesOut(WithRow(files, ctx, paths[i], size, hash), ctx.tenant, paths[..i + 1])
  {
    var p :| p in paths[..i] && MakeKey(ctx.tenant, p) !in files;
    assert p in paths[..i + 1];
    if MakeKey(ctx.tenant, p) == MakeKey(ctx.tenant, paths[i]) { KeyInjective(ctx.tenant, ctx.tenant, p, paths[i]); }
  }

  /** Part-way: rows of the paths reached only, and one of those without a row if anything failed. */
  ghost predicate Shows(files: map<string, FileMeta>, t: Tenant, reached: seq<Path>, failed: bool) {
    OnlyThese(files, t, reached) && (failed ==> LeavesOut(files, t, reached))
  }

  lemma ShowsNext(cfg: Config, mid: State, s': State, ctx: Ctx, c: Client, paths: seq<Path>, i: nat, failed: bool, ok: bool)
    requires NoDuplicates(paths) && i < |paths| && paths[i] in c.fs && Shows(mid.db.files, ctx.tenant, paths[..i], failed)
    requires Serves(cfg, mid, s', ctx, c, paths[i], ok)
    ensures Shows(s'.db.files, ctx.tenant, paths[..i + 1], failed || !ok) && s'.db.uploads == mid.db.uploads
  {
    var size, hash := |c.fs[paths[i]]|, cfg.hash(c.fs[paths[i]]);
    OnlyTheseNext(mid.db.files, ctx, paths, i, size, hash);
    assert s'.db.files == mid.db.files || s'.db.files == WithRow(mid.db.files, ctx, paths[i], size, hash);
    if failed { StillLeftOut(mid.db.files, ctx, paths, i, size, hash); }
    if !ok {
      NotReachedYet(mid.db.files, ctx.tenant, paths, i);
      assert paths[..i + 1][i] == paths[i] && paths[i] in paths[..i + 1];
    }
  }

  // ---- a push with refusals ----

  /** Server, client, and whether nothing has been refused so far. */
  datatype Sweep = Sweep(server: State, client: Client, ok: bool)

  /** There is an upload for this very file to be finished. */
  predicate Resumes(cfg: Config, s: State, ctx: Ctx, c: Client, path: Path)
    requires path in c.fs
  {
    |c.fs[path]| >= CHUNK_SIZE && Pending(s.db, ctx, c, path)
    && Resumable(cfg, s, ctx, c.records[path].uploadId.value, c.fs[path])
    && s.db.uploads[c.records[path].uploadId.value].path == path
  }

  /** Finish the upload, or offer the file. */
  ghost function Taken(cfg: Config, s: State, ctx: Ctx, c: Client, path: Path): State
    requires path in c.fs
  {
    if Resumes(cfg, s, ctx, c, path)
    then Finalized(cfg, s, ctx, s.db.uploads[c.records[path].uploadId.value], c.fs[path]).0
    else Offered(cfg, s, ctx, path, c.fs[path])
  }

  ghost predicate Takes(cfg: Config, s: State, ctx: Ctx, c: Client, path: Path)
    requires path in c.fs
  {
    Resumes(cfg, s, ctx, c, path) || Accepts(cfg, s, ctx, path, c.fs[path])
  }

  function Recorded(cfg: Config, s: State, ctx: Ctx, c: Client, path: Path): Client
    requires path in c.fs
  {
    var hash := cfg.hash(c.fs[path]);
    c.(records := c.records[path := SyncRecord(path, hash, PutRow(s.db.files, ctx, path, |c.fs[path]|, hash).version, None)])
  }

  /** One scanned path, with nothing lost: skipped, taken and recorded, or refused. */
  ghost function SweepOne(cfg: Config, ctx: Ctx, w: Sweep, path: Path): (w': Sweep)
    requires path in w.client.fs
    ensures w'.client.fs == w.client.fs
  {
    if !NeedsUpload(cfg.hash, w.client, path) then w
    else if Takes(cfg, w.server, ctx, w.client, path) then
      Sweep(Taken(cfg, w.server, ctx, w.client, path), Recorded(cfg, w.server, ctx, w.client, path), w.ok)
    else w.(ok := false)
  }

  ghost function SweepAll(cfg: Config, ctx: Ctx, w: Sweep, paths: seq<Path>): (w': Sweep)
    requires AllPresent(w.client, paths)
    ensures w'.client.fs == w.client.fs
  {
    if paths == [] then w
    else SweepOne(cfg, ctx, SweepAll(cfg, ctx, w, paths[..|paths| - 1]), paths[|paths| - 1])
  }

  lemma SweepNext(cfg: Config, ctx: Ctx, w: Sweep, paths: seq<Path>, i: nat)
    requires AllPresent(w.client, paths) && i < |paths|
    ensures SweepAll(cfg, ctx, w, paths[..i + 1]) == SweepOne(cfg, ctx, SweepAll(cfg, ctx, w, paths[..i]), paths[i])
  {
    assert paths[..i + 1][..i] == paths[..i];
  }

  /** The second loop: whatever was refused in the first, the missing paths go. */
  function SweepMissing(ctx: Ctx, w: Sweep): Sweep {
    w.(server := w.server.(db := w.server.db.(files := MarkAll(w.server.db.files, ctx.tenant, Missing(w.client)))),
       client := w.client.(records := w.client.records - Missing(w.client)))
  }

  /** Live with the local hash, and recorded so, at the row's own version. */
  predicate Landed(h: Hasher, w: Sweep, ctx: Ctx, path: Path)
    requires path in w.client.fs
  {
    var hash, key := h(w.client.fs[path]), MakeKey(ctx.tenant, path);
    && LiveWith(w.server.db.files, ctx.tenant, path, hash)
    && path in w.client.records
    && w.client.records[path] == SyncRecord(path, hash, w.server.db.files[key].version, None)
  }

  lemma TakenRow(cfg: Config, s: State, ctx: Ctx, c: Client, path: Path)
    requires path in c.fs && Takes(cfg, s, ctx, c, path)
    ensures Taken(cfg, s, ctx, c, path).db.files == WithRow(s.db.files, ctx, path, |c.fs[path]|, cfg.hash(c.fs[path]))
  {
  }

  lemma SweepLands(cfg: Config, ctx: Ctx, w: Sweep, path: Path)
    requires path in w.client.fs && NeedsUpload(cfg.hash, w.client, path) && Takes(cfg, w.server, ctx, w.client, path)
    ensures Landed(cfg.hash, SweepOne(cfg, ctx, w, path), ctx, path)
  {
    TakenRow(cfg, w.server, ctx, w.client, path);
  }

  lemma StaysLanded(cfg: Config, ctx: Ctx, w: Sweep, path: Path, next: Path)
    requires path in w.client.fs && next in w.client.fs && Landed(cfg.hash, w, ctx, path)
    ensures Landed(cfg.hash, SweepOne(cfg, ctx, w, next), ctx, path)
  {
    if NeedsUpload(cfg.hash, w.client, next) && Takes(cfg, w.server, ctx, w.client, next) {
      TakenRow(cfg, w.server, ctx, w.client, next);
      if MakeKey(ctx.tenant, path) == MakeKey(ctx.tenant, next) { KeyInjective(ctx.tenant, ctx.tenant, path, next); }
    }
  }

  lemma {:induction false} LandedAlong(cfg: Config, ctx: Ctx, w: Sweep, paths: seq<Path>, i: nat, n: nat)
    requires AllPresent(w.client, paths) && i < n <= |paths|
    requires var at := SweepAll(cfg, ctx, w, paths[..i]);
             NeedsUpload(cfg.hash, at.client, paths[i]) && Takes(cfg, at.server, ctx, at.client, paths[i])
    ensures Landed(cfg.hash, SweepAll(cfg, ctx, w, paths[..n]), ctx, paths[i])
    decreases n
  {
    SweepNext(cfg, ctx, w, paths, n - 1);
    if i < n - 1 {
      LandedAlong(cfg, ctx, w, paths, i, n - 1);
      StaysLanded(cfg, ctx, SweepAll(cfg, ctx, w, paths[..n - 1]), paths[i], paths[n - 1]);
    } else {
      SweepLands(cfg, ctx, SweepAll(cfg, ctx, w, paths[..i]), paths[i]);
    }
  }

  /**
   * Refusals do not spread. Whatever else was refused: a path that needs uploading and that the
   * server takes when its turn comes ends live with the local hash, and recorded so; a recorded
   * path that is missing locally ends deleted and forgotten.
   */
  lemma RefusalsDoNotSpread(cfg: Config, ctx: Ctx, w: Sweep, paths: seq<Path>)
    requires AllPresent(w.client, paths)
    ensures var end := SweepMissing(ctx, SweepAll(cfg, ctx, w, paths));
            && (forall i :: 0 <= i < |paths| ==>
                  var at := SweepAll(cfg, ctx, w, paths[..i]);
                  NeedsUpload(cfg.hash, at.client, paths[i]) && Takes(cfg, at.server, ctx, at.client, paths[i]) ==>
                    Landed(cfg.hash, end, ctx, paths[i]))
            && (forall p :: p in Missing(w.client) ==>
                  p !in end.client.records
                  && (MakeKey(ctx.tenant, p) in end.server.db.files ==> end.server.db.files[MakeKey(ctx.tenant, p)].isDeleted))
  {
    var swept := SweepAll(cfg, ctx, w, paths);
    var end := SweepMissing(ctx, swept);
    forall i | 0 <= i < |paths|
      ensures var at := SweepAll(cfg, ctx, w, paths[..i]);
              NeedsUpload(cfg.hash, at.client, paths[i]) && Takes(cfg, at.server, ctx, at.client, paths[i]) ==>
                Landed(cfg.hash, end, ctx, paths[i])
    {
      var at := SweepAll(cfg, ctx, w, paths[..i]);
      if NeedsUpload(cfg.hash, at.client, paths[i]) && Takes(cfg, at.server, ctx, at.client, paths[i]) {
        LandedAlong(cfg, ctx, w, paths, i, |paths|);
        assert paths[..|paths|] == paths;
        LandedAfterDeletes(cfg.hash, ctx, swept, paths[i]);
      }
    }
    SameMissing(cfg, ctx, w, paths);
    forall p | p in Missing(w.client)
      ensures MakeKey(ctx.tenant, p) in end.server.db.files ==> end.server.db.files[MakeKey(ctx.tenant, p)].isDeleted
    {
    }
  }

  lemma LandedAfterDeletes(h: Hasher, ctx: Ctx, w: Sweep, path: Path)
    requires path in w.client.fs && Landed(h, w, ctx, path)
    ensures Landed(h, SweepMissing(ctx, w), ctx, path)
  {
    forall q | q in Missing(w.client) ensures MakeKey(ctx.tenant, q) != MakeKey(ctx.tenant, path) {
      if MakeKey(ctx.tenant, q) == MakeKey(ctx.tenant, path) { KeyInjective(ctx.tenant, ctx.tenant, q, path); }
    }
  }

  /** Uploading records present paths only. */
  lemma {:induction false} SameMissing(cfg: Config, ctx: Ctx, w: Sweep, paths: seq<Path>)
    requires AllPresent(w.client, paths)
    ensures Missing(SweepAll(cfg, ctx, w, paths).client) == Missing(w.client)
  {
    if paths != [] {
      var shorter := SweepAll(cfg, ctx, w, paths[..|paths| - 1]);
      SameMissing(cfg, ctx, w, paths[..|paths| - 1]);
      assert Missing(SweepOne(cfg, ctx, shorter, paths[|paths| - 1]).client) == Missing(shorter.client);
    }
  }

  /** No other rows and records change than those of scanned and of missing paths. */
  lemma SweepTouchesNoOther(cfg: Config, ctx: Ctx, w: Sweep, paths: seq<Path>)
    requires AllPresent(w.client, paths)
    ensures var end := SweepMissing(ctx, SweepAll(cfg, ctx, w, paths));
            && (forall key :: (forall q :: q in paths || q in Missing(w.client) ==> key != MakeKey(ctx.tenant, q)) ==>
                  SameRow(w.server.db.files, end.server.db.files, key))
            && (forall q :: q !in paths && q !in Missing(w.client) ==> SameRecordAt(w.client, end.client, q))
  {
    SameMissing(cfg, ctx, w, paths);
    var swept := SweepAll(cfg, ctx, w, paths);
    forall key | forall q :: q in paths || q in Missing(w.client) ==> key != MakeKey(ctx.tenant, q)
      ensures SameRow(w.server.db.files, SweepMissing(ctx, swept).server.db.files, key)
    {
      RowAlong(cfg, ctx, w, paths, key);
    }
    forall q | q !in paths && q !in Missing(w.client) ensures SameRecordAt(w.client, SweepMissing(ctx, swept).client, q) {
      RecordAlong(cfg, ctx, w, paths, q);
    }
  }

  predicate SameRow(files: map<string, FileMeta>, files': map<string, FileMeta>, key: string) {
    (key in files' <==> key in files) && (key in files ==> files'[key] == files[key])
  }

  predicate SameRecordAt(c: Client, c': Client, p: Path) {
    (p in c'.records <==> p in c.records) && (p in c.records ==> c'.records[p] == c.records[p])
  }

  lemma {:induction false} RowAlong(cfg: Config, ctx: Ctx, w: Sweep, paths: seq<Path>, key: string)
    requires AllPresent(w.client, paths) && forall q :: q in paths ==> key != MakeKey(ctx.tenant, q)
    ensures SameRow(w.server.db.files, SweepAll(cfg, ctx, w, paths).server.db.files, key)
  {
    if paths != [] {
      var shorter, last := paths[..|paths| - 1], paths[|paths| - 1];
      RowAlong(cfg, ctx, w, shorter, key);
      var mid := SweepAll(cfg, ctx, w, shorter);
      if Takes(cfg, mid.server, ctx, mid.client, last) { TakenRow(cfg, mid.server, ctx, mid.client, last); }
    }
  }

  lemma {:induction false} RecordAlong(cfg: Config, ctx: Ctx, w: Sweep, paths: seq<Path>, p: Path)
    requires AllPresent(w.client, paths) && p !in paths
    ensures SameRecordAt(w.client, SweepAll(cfg, ctx, w, paths).client, p)
  {
    if paths != [] { RecordAlong(cfg, ctx, w, paths[..|paths| - 1], p); }
  }

  /** Taking one path leaves the uploads of the others as resumable as they were. */
  lemma SweepKeepsGood(cfg: Config, ctx: Ctx, w: Sweep, path: Path, other: Path)
    requires path in w.client.fs && other in w.client.fs && Inv(cfg, w.server) && Distinguished(cfg.hash, w.client.fs)
    requires GoodRecord(cfg, w.server, ctx, w.client, other)
    ensures var w' := SweepOne(cfg, ctx, w, path); GoodRecord(cfg, w'.server, ctx, w'.client, other)
  {
    var w' := SweepOne(cfg, ctx, w, path);
    if path != other && NeedsUpload(cfg.hash, w.client, path) && Takes(cfg, w.server, ctx, w.client, path)
      && Pending(w'.server.db, ctx, w'.client, other) {
      if Resumes(cfg, w.server, ctx, w.client, path) {
        var mine := w.client.records[path].uploadId.value;
        assert UploadOk(w.server.db, w.server.disk, w.server.nextId, mine);
      }
      assert NoCollision(cfg, w'.server.disk, ctx.tenant, w.client.fs[other]);
    }
  }
}
