/** What a push with no failed call does to the sync records and the server's rows. */
module PushModel {
  import opened Prelude
  import opened Tables
  import opened ClientModel
  import opened SyncRuns

  /** The skip test of both push routines. */
  predicate NeedsUpload(h: Hasher, c: Client, path: Path)
    requires path in c.fs
  {
    !(path in c.records && c.records[path].localHash == h(c.fs[path]))
  }

  /** Client records and server rows together. */
  datatype Pair = Pair(client: Client, files: map<string, FileMeta>)

  function PushFile(h: Hasher, ctx: Ctx, w: Pair, path: Path): Pair
    requires path in w.client.fs
  {
    var c := w.client;
    if !NeedsUpload(h, c, path) then w
    else
      var content := c.fs[path];
      var meta := PutRow(w.files, ctx, path, |content|, h(content));
      Pair(c.(records := c.records[path := SyncRecord(path, h(content), meta.version, None)]),
           WithRow(w.files, ctx, path, |content|, h(content)))
  }

  predicate AllPresent(c: Client, paths: seq<Path>) { forall i :: 0 <= i < |paths| ==> paths[i] in c.fs }

  /** The first loop of `push`. */
  function PushScanned(h: Hasher, ctx: Ctx, w: Pair, paths: seq<Path>): (w': Pair)
    requires AllPresent(w.client, paths)
    ensures w'.client.fs == w.client.fs
  {
    if paths == [] then w
    else PushFile(h, ctx, PushScanned(h, ctx, w, paths[..|paths| - 1]), paths[|paths| - 1])
  }

  /** Recorded paths that are no longer in the tree. */
  function Missing(c: Client): set<Path> { c.records.Keys - c.fs.Keys }

  /** Every row at one of these paths, marked deleted. */
  function MarkAll(files: map<string, FileMeta>, t: Tenant, paths: set<Path>): map<string, FileMeta> {
    map key | key in files ::
      if exists p :: p in paths && MakeKey(t, p) == key then files[key].(isDeleted := true) else files[key]
  }

  lemma MarkOneMore(files: map<string, FileMeta>, t: Tenant, paths: set<Path>, p: Path)
    ensures MarkDeleted(MarkAll(files, t, paths), MakeKey(t, p)) == MarkAll(files, t, paths + {p})
  {
    forall q | MakeKey(t, q) == MakeKey(t, p) ensures q == p { SameKey(t, q, p); }
  }

  /** The second loop of `push`. */
  function PushMissing(ctx: Ctx, w: Pair): Pair {
    Pair(w.client.(records := w.client.records - Missing(w.client)),
         MarkAll(w.files, ctx.tenant, Missing(w.client)))
  }

  function PushAll(h: Hasher, ctx: Ctx, w: Pair, scanned: seq<Path>): Pair
    requires AllPresent(w.client, scanned)
  {
    PushMissing(ctx, PushScanned(h, ctx, w, scanned))
  }

  /** Live on the server with this hash. */
  predicate LiveWith(files: map<string, FileMeta>, t: Tenant, p: Path, hash: Hash) {
    var key := MakeKey(t, p);
    key in files && !files[key].isDeleted && files[key].contentHash == hash
    && files[key].path == p && files[key].tenant == t
  }

  /** A record that makes push skip a file is backed by a live row with that hash. */
  predicate Agree(h: Hasher, ctx: Ctx, w: Pair) {
    forall p :: p in w.client.fs && p in w.client.records && w.client.records[p].localHash == h(w.client.fs[p]) ==>
      LiveWith(w.files, ctx.tenant, p, h(w.client.fs[p]))
  }

  /** Nothing left for push to do. */
  predicate Settled(h: Hasher, c: Client, scanned: seq<Path>) {
    && AllPresent(c, scanned)
    && (forall i :: 0 <= i < |scanned| ==> !NeedsUpload(h, c, scanned[i]))
    && Missing(c) == {}
  }

  lemma PushFileAgrees(h: Hasher, ctx: Ctx, w: Pair, path: Path)
    requires path in w.client.fs && Agree(h, ctx, w)
    ensures var w' := PushFile(h, ctx, w, path);
            && Agree(h, ctx, w') && !NeedsUpload(h, w'.client, path)
            && LiveWith(w'.files, ctx.tenant, path, h(w.client.fs[path]))
            && (forall q :: q in w.client.fs && !NeedsUpload(h, w.client, q) ==> !NeedsUpload(h, w'.client, q))
            && w'.client.records.Keys - {path} == w.client.records.Keys - {path}
  {
    var w' := PushFile(h, ctx, w, path);
    forall q | q in w.client.fs && q in w'.client.records && w'.client.records[q].localHash == h(w.client.fs[q])
      ensures LiveWith(w'.files, ctx.tenant, q, h(w.client.fs[q]))
    {
      if MakeKey(ctx.tenant, q) == MakeKey(ctx.tenant, path) { SameKey(ctx.tenant, q, path); }
    }
  }

  lemma {:induction false} ScanConverges(h: Hasher, ctx: Ctx, w: Pair, paths: seq<Path>)
    requires AllPresent(w.client, paths) && Agree(h, ctx, w)
    ensures var w' := PushScanned(h, ctx, w, paths);
            && Agree(h, ctx, w') && Missing(w'.client) == Missing(w.client)
            && forall i :: 0 <= i < |paths| ==> !NeedsUpload(h, w'.client, paths[i])
  {
    if paths != [] {
      var rest, last := paths[..|paths| - 1], paths[|paths| - 1];
      ScanConverges(h, ctx, w, rest);
      var mid := PushScanned(h, ctx, w, rest);
      PushFileAgrees(h, ctx, mid, last);
      var w' := PushScanned(h, ctx, w, paths);
      assert Missing(w'.client) == Missing(mid.client);
      forall i | 0 <= i < |paths| ensures !NeedsUpload(h, w'.client, paths[i]) {
        if i < |rest| { assert paths[i] == rest[i]; }
      }
    }
  }

  /**
   * A push with no failed call, by a client whose skip records the server bears out: every scanned
   * path is live with the local hash, every recorded path that is missing locally is deleted on
   * the server and forgotten, and nothing is left to do.
   */
  lemma PushConverges(h: Hasher, ctx: Ctx, w: Pair, scanned: seq<Path>)
    requires AllPresent(w.client, scanned) && Agree(h, ctx, w)
    ensures var w' := PushAll(h, ctx, w, scanned);
            && w'.client.fs == w.client.fs
            && Settled(h, w'.client, scanned) && Agree(h, ctx, w')
            && (forall i :: 0 <= i < |scanned| ==>
                  LiveWith(w'.files, ctx.tenant, scanned[i], h(w.client.fs[scanned[i]]))
                  && scanned[i] in w'.client.records)
            && (forall p :: p in Missing(w.client) ==>
                  p !in w'.client.records
                  && (MakeKey(ctx.tenant, p) in w'.files ==> w'.files[MakeKey(ctx.tenant, p)].isDeleted))
  {
    ScanConverges(h, ctx, w, scanned);
    var mid := PushScanned(h, ctx, w, scanned);
    var w' := PushAll(h, ctx, w, scanned);
    forall p | p in mid.client.fs && p in mid.client.records && mid.client.records[p].localHash == h(mid.client.fs[p])
      ensures LiveWith(w'.files, ctx.tenant, p, h(mid.client.fs[p]))
    {
      forall q | MakeKey(ctx.tenant, q) == MakeKey(ctx.tenant, p) ensures q == p { SameKey(ctx.tenant, q, p); }
    }
    forall i | 0 <= i < |scanned|
      ensures LiveWith(w'.files, ctx.tenant, scanned[i], h(w.client.fs[scanned[i]])) && !NeedsUpload(h, w'.client, scanned[i])
    {
      assert !NeedsUpload(h, mid.client, scanned[i]);
    }
  }

  /** A settled client's push changes nothing. */
  lemma {:induction false} SettledScan(h: Hasher, ctx: Ctx, w: Pair, paths: seq<Path>)
    requires AllPresent(w.client, paths)
    requires forall i :: 0 <= i < |paths| ==> !NeedsUpload(h, w.client, paths[i])
    ensures PushScanned(h, ctx, w, paths) == w
  {
    if paths != [] {
      SettledScan(h, ctx, w, paths[..|paths| - 1]);
      assert !NeedsUpload(h, w.client, paths[|paths| - 1]);
    }
  }

  /** Pushing again without a local change in between is the identity. */
  lemma PushIsIdempotent(h: Hasher, ctx: Ctx, w: Pair, scanned: seq<Path>)
    requires AllPresent(w.client, scanned) && Agree(h, ctx, w)
    ensures var once := PushAll(h, ctx, w, scanned);
            once.client.fs == w.client.fs && PushAll(h, ctx, once, scanned) == once
  {
    PushConverges(h, ctx, w, scanned);
    var once := PushAll(h, ctx, w, scanned);
    SettledScan(h, ctx, once, scanned);
    assert once.client.records - {} == once.client.records;
    assert PushMissing(ctx, once).files == once.files;
  }

  /**
   * A chunked upload that fails after its first record was written is tried again by the next push
   * exactly when the file had a record before.
   */
  lemma FailedUploadRetriedIff(h: Hasher, c: Client, path: Path, id: UploadId)
    requires path in c.fs && NeedsUpload(h, c, path)
    ensures NeedsUpload(h, OpenRecord(c, path, h(c.fs[path]), id), path) <==> path in c.records
  {
  }
}
