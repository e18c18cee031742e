/** A whole pull against an unchanging server, and what it rebuilds in an empty directory. */
module PullModel {
  import opened Prelude
  import opened Tables
  import opened Machine
  import opened Integrity
  import opened Service
  import opened ServerClass
  import opened ClientModel
  import opened PushModel

  /** Where the bytes of a planned download go first. */
  function PartFor(plan: Plan): Option<Path> {
    match plan
    case Skip => None
    case Conflict(dest) => Some(PartOf(dest))
    case Install(dest) => Some(PartOf(dest))
  }

  /** What an unbroken network answers when the client pulls `meta`. */
  function Answer(cfg: Config, s: State, ctx: Ctx, c: Client, meta: FileMeta, timestamp: string): Response {
    match PartFor(PlanPull(cfg.hash, c, meta, timestamp))
    case None => Refused
    case Some(part) =>
      Delivery(ServeFile(cfg, s, ctx, meta.path, SizeAt(c.fs, part)))
  }

  /** The server's answer, delivered in full. */
  function Delivery(answer: Result<(bool, Bytes)>): Response {
    match answer
    case Err(_) => Refused
    case Ok((resumed, stream)) => Delivered(resumed, stream, true)
  }

  /** The server delivers exactly the bytes from the asked-for one on, or refuses. */
  lemma ServedRange(content: Bytes, start: nat)
    ensures Delivery(ServeRange(content, start)) == Serve(content, start)
  {
  }

  /** What the tenant has stored for a path, deleted or not. */
  function StoredAt(cfg: Config, s: State, ctx: Ctx, path: Path): Option<Bytes> {
    var key := MakeKey(ctx.tenant, path);
    if key !in s.db.files then None
    else
      var blob := BlobAt(cfg, ctx.tenant, s.db.files[key].contentHash);
      if blob in s.disk.blobs then Some(s.disk.blobs[blob]) else None
  }

  /** Nothing, or the beginning, of what is to come. */
  predicate GoodStart(fs: map<Path, Bytes>, part: Path, content: Bytes) {
    ContentAt(fs, part) == [] || ContentAt(fs, part) < content
  }

  /** A download of what is stored, continued from a good start, completes. */
  lemma ServedThenFetched(cfg: Config, s: State, ctx: Ctx, fs: map<Path, Bytes>, path: Path, dest: Path)
    requires StoredAt(cfg, s, ctx, path).Some? && GoodStart(fs, PartOf(dest), StoredAt(cfg, s, ctx, path).value)
    ensures var content := StoredAt(cfg, s, ctx, path).value;
            Fetch(cfg.hash, fs, dest, cfg.hash(content), Delivery(ServeFile(cfg, s, ctx, path, SizeAt(fs, PartOf(dest)))))
            == ((fs - {PartOf(dest)})[dest := content], true)
  {
    var content := StoredAt(cfg, s, ctx, path).value;
    ServedRange(content, SizeAt(fs, PartOf(dest)));
    FetchCompletes(cfg.hash, fs, dest, content);
  }

  function PullOne(cfg: Config, s: State, ctx: Ctx, c: Client, meta: FileMeta, timestamp: string): Client {
    PullFile(cfg.hash, c, meta, Answer(cfg, s, ctx, c, meta, timestamp), timestamp).0
  }

  /** `clock(k)` is the time at which file `k` is reached. */
  function PullAll(cfg: Config, s: State, ctx: Ctx, c: Client, list: seq<FileMeta>, clock: nat -> string): Client {
    if list == [] then c
    else
      var k := |list| - 1;
      PullOne(cfg, s, ctx, PullAll(cfg, s, ctx, c, list[..k], clock), list[k], clock(k))
  }

  lemma PullAllNext(cfg: Config, s: State, ctx: Ctx, c: Client, list: seq<FileMeta>, k: nat, clock: nat -> string)
    requires k < |list|
    ensures PullAll(cfg, s, ctx, c, list[..k + 1], clock)
            == PullOne(cfg, s, ctx, PullAll(cfg, s, ctx, c, list[..k], clock), list[k], clock(k))
  {
    assert list[..k + 1][..k] == list[..k];
  }

  // ---- the round trip ----

  /** No path of the tree is the name of another's partial download. */
  predicate NoPartNames(tree: map<Path, Bytes>) {
    forall p :: p in tree ==> PartOf(p) !in tree
  }

  /** No other content has the hash of a file of the tree. */
  ghost predicate Distinguished(h: Hasher, tree: map<Path, Bytes>) {
    forall p, x :: p in tree && h(x) == h(tree[p]) ==> x == tree[p]
  }

  /** The tenant's live rows are exactly the files of the tree. */
  ghost predicate Mirrors(h: Hasher, files: map<string, FileMeta>, t: Tenant, tree: map<Path, Bytes>) {
    && (forall p :: p in tree ==> LiveWith(files, t, p, h(tree[p])))
    && forall key :: key in Listed(files, t) ==> exists p :: p in tree && key == MakeKey(t, p)
  }

  function Take(tree: map<Path, Bytes>, list: seq<FileMeta>): map<Path, Bytes> {
    map p | p in tree && (exists k :: 0 <= k < |list| && list[k].path == p) :: tree[p]
  }

  /** The rows of a listing: some of the tree's files, no path twice. */
  ghost predicate ListsTree(h: Hasher, t: Tenant, files: map<string, FileMeta>, tree: map<Path, Bytes>, list: seq<FileMeta>) {
    && (forall k :: 0 <= k < |list| ==>
          list[k].path in tree && MakeKey(t, list[k].path) in files && list[k] == files[MakeKey(t, list[k].path)]
          && LiveWith(files, t, list[k].path, h(tree[list[k].path])))
    && forall j, k :: 0 <= j < k < |list| ==> list[j].path != list[k].path
  }

  /** Pulling one more listed file into a directory that has only the earlier ones. */
  lemma PullOneMore(cfg: Config, s: State, ctx: Ctx, tree: map<Path, Bytes>, c: Client, meta: FileMeta, timestamp: string)
    requires StoredInv(cfg, s) && Distinguished(cfg.hash, tree)
    requires meta.path in tree && meta.path !in c.records && PartOf(meta.path) !in c.fs
    requires LiveWith(s.db.files, ctx.tenant, meta.path, cfg.hash(tree[meta.path]))
    requires meta == s.db.files[MakeKey(ctx.tenant, meta.path)]
    ensures var c' := PullOne(cfg, s, ctx, c, meta, timestamp);
            c'.fs == c.fs[meta.path := tree[meta.path]] && c'.records.Keys == c.records.Keys + {meta.path}
  {
    var blob := BlobAt(cfg, ctx.tenant, meta.contentHash);
    assert RowStored(cfg, s.disk, meta);
    var content := s.disk.blobs[blob];
    assert content == tree[meta.path];
    assert Answer(cfg, s, ctx, c, meta, timestamp) == Delivered(false, content, true);
    var part := PartOf(meta.path);
    assert c.fs[part := content] - {part} == c.fs;
  }

  lemma NotTakenYet(tree: map<Path, Bytes>, list: seq<FileMeta>)
    requires list != [] && NoPartNames(tree) && list[|list| - 1].path in tree
    requires forall j, k :: 0 <= j < k < |list| ==> list[j].path != list[k].path
    ensures var shorter, last := Take(tree, list[..|list| - 1]), list[|list| - 1].path;
            last !in shorter && PartOf(last) !in shorter
  {
  }

  lemma ShorterListing(h: Hasher, t: Tenant, files: map<string, FileMeta>, tree: map<Path, Bytes>, list: seq<FileMeta>)
    requires list != [] && ListsTree(h, t, files, tree, list)
    ensures ListsTree(h, t, files, tree, list[..|list| - 1])
  {
  }

  lemma PullTakesLast(cfg: Config, s: State, ctx: Ctx, tree: map<Path, Bytes>, list: seq<FileMeta>, clock: nat -> string)
    requires StoredInv(cfg, s) && Distinguished(cfg.hash, tree) && NoPartNames(tree)
    requires list != [] && ListsTree(cfg.hash, ctx.tenant, s.db.files, tree, list)
    requires var c := PullAll(cfg, s, ctx, Client(map[], map[]), list[..|list| - 1], clock);
             c.fs == Take(tree, list[..|list| - 1]) && c.records.Keys == c.fs.Keys
    ensures var c := PullAll(cfg, s, ctx, Client(map[], map[]), list, clock);
            c.fs == Take(tree, list) && c.records.Keys == c.fs.Keys
  {
    var k := |list| - 1;
    NotTakenYet(tree, list);
    PullOneMore(cfg, s, ctx, tree, PullAll(cfg, s, ctx, Client(map[], map[]), list[..k], clock), list[k], clock(k));
    TakeOneMore(tree, list);
  }

  lemma {:induction false} PullTakes(cfg: Config, s: State, ctx: Ctx, tree: map<Path, Bytes>, list: seq<FileMeta>, clock: nat -> string)
    requires StoredInv(cfg, s) && Distinguished(cfg.hash, tree) && NoPartNames(tree)
    requires ListsTree(cfg.hash, ctx.tenant, s.db.files, tree, list)
    ensures var c := PullAll(cfg, s, ctx, Client(map[], map[]), list, clock);
            c.fs == Take(tree, list) && c.records.Keys == c.fs.Keys
  {
    if list != [] {
      ShorterListing(cfg.hash, ctx.tenant, s.db.files, tree, list);
      PullTakes(cfg, s, ctx, tree, list[..|list| - 1], clock);
      PullTakesLast(cfg, s, ctx, tree, list, clock);
    }
  }

  lemma TakeOneMore(tree: map<Path, Bytes>, list: seq<FileMeta>)
    requires list != [] && list[|list| - 1].path in tree
    ensures var last := list[|list| - 1].path;
            Take(tree, list) == Take(tree, list[..|list| - 1])[last := tree[last]]
  {
    var shorter, last := list[..|list| - 1], list[|list| - 1].path;
    forall p | p in tree ensures p in Take(tree, list) <==> p in Take(tree, shorter) || p == last {
      if p == last { assert list[|list| - 1].path == p; }
      if p in Take(tree, shorter) {
        var j :| 0 <= j < |shorter| && shorter[j].path == p;
        assert list[j].path == p;
      }
      if p in Take(tree, list) && p != last {
        var j :| 0 <= j < |list| && list[j].path == p;
        assert shorter[j].path == p;
      }
    }
  }

  lemma ListingListsTree(h: Hasher, t: Tenant, files: map<string, FileMeta>, tree: map<Path, Bytes>, keys: seq<string>, list: seq<FileMeta>)
    requires Mirrors(h, files, t, tree) && Enumerates(Listed(files, t), keys, list)
    ensures ListsTree(h, t, files, tree, list) && Take(tree, list) == tree
  {
    forall k | 0 <= k < |list|
      ensures list[k].path in tree && keys[k] == MakeKey(t, list[k].path) && list[k] == files[keys[k]]
    {
      assert keys[k] in Listed(files, t);
    }
    forall j, k | 0 <= j < k < |list| ensures list[j].path != list[k].path {
      assert keys[j] != keys[k];
    }
    forall p | p in tree ensures p in Take(tree, list) {
      assert LiveWith(files, t, p, h(tree[p]));
      KeyInNamespace(t, p);
      assert MakeKey(t, p) in Listed(files, t);
      assert MakeKey(t, p) in Elements(keys);
      var k :| 0 <= k < |keys| && keys[k] == MakeKey(t, p);
      assert list[k].path == p;
    }
  }

  /** Pulling into an empty directory rebuilds the tree the rows mirror, path for path and byte for byte. */
  lemma PullRebuildsTree(cfg: Config, s: State, ctx: Ctx, tree: map<Path, Bytes>, keys: seq<string>, list: seq<FileMeta>, clock: nat -> string)
    requires StoredInv(cfg, s) && Distinguished(cfg.hash, tree) && NoPartNames(tree)
    requires Mirrors(cfg.hash, s.db.files, ctx.tenant, tree)
    requires Enumerates(Listed(s.db.files, ctx.tenant), keys, list)
    ensures PullAll(cfg, s, ctx, Client(map[], map[]), list, clock).fs == tree
  {
    ListingListsTree(cfg.hash, ctx.tenant, s.db.files, tree, keys, list);
    PullTakes(cfg, s, ctx, tree, list, clock);
  }

  /** The tenant has no rows. */
  predicate NoRows(files: map<string, FileMeta>, t: Tenant) {
    forall key :: key in files ==> !InNamespace(key, t)
  }

  lemma {:induction false} ScanAddsOnly(h: Hasher, ctx: Ctx, w: Pair, paths: seq<Path>)
    requires AllPresent(w.client, paths)
    ensures forall key :: key in PushScanned(h, ctx, w, paths).files ==>
              key in w.files || exists i :: 0 <= i < |paths| && key == MakeKey(ctx.tenant, paths[i])
  {
    if paths != [] {
      var shorter := paths[..|paths| - 1];
      ScanAddsOnly(h, ctx, w, shorter);
      forall key | key in PushScanned(h, ctx, w, paths).files
        ensures key in w.files || exists i :: 0 <= i < |paths| && key == MakeKey(ctx.tenant, paths[i])
      {
        if key in PushScanned(h, ctx, w, shorter).files && key !in w.files {
          var i :| 0 <= i < |shorter| && key == MakeKey(ctx.tenant, shorter[i]);
          assert paths[i] == shorter[i];
        } else if key !in w.files {
          assert key == MakeKey(ctx.tenant, paths[|paths| - 1]);
        }
      }
    }
  }

  /** A first push of a whole tree to a tenant without rows makes the rows mirror it. */
  lemma FirstPushMirrors(h: Hasher, ctx: Ctx, tree: map<Path, Bytes>, files: map<string, FileMeta>, scanned: seq<Path>)
    requires NoRows(files, ctx.tenant) && Elements(scanned) == tree.Keys && AllPresent(Client(tree, map[]), scanned)
    ensures Mirrors(h, PushAll(h, ctx, Pair(Client(tree, map[]), files), scanned).files, ctx.tenant, tree)
  {
    var w := Pair(Client(tree, map[]), files);
    var w' := PushAll(h, ctx, w, scanned);
    PushConverges(h, ctx, w, scanned);
    ScanAddsOnly(h, ctx, w, scanned);
    forall p | p in tree ensures LiveWith(w'.files, ctx.tenant, p, h(tree[p])) {
      assert p in Elements(scanned);
      var i :| 0 <= i < |scanned| && scanned[i] == p;
      assert LiveWith(w'.files, ctx.tenant, scanned[i], h(tree[scanned[i]]));
    }
    forall key | key in Listed(w'.files, ctx.tenant) ensures exists p :: p in tree && key == MakeKey(ctx.tenant, p) {
      assert key in PushScanned(h, ctx, w, scanned).files && key !in files;
      var i :| 0 <= i < |scanned| && key == MakeKey(ctx.tenant, scanned[i]);
      assert scanned[i] in Elements(scanned);
    }
  }

  /**
   * Push then pull is the identity: after a first push with no failed call of a whole tree to a
   * tenant without rows, a pull into an empty directory yields the tree.
   */
  lemma PushThenPull(cfg: Config, s: State, ctx: Ctx, tree: map<Path, Bytes>, files: map<string, FileMeta>,
                     scanned: seq<Path>, keys: seq<string>, list: seq<FileMeta>, clock: nat -> string)
    requires Distinguished(cfg.hash, tree) && NoPartNames(tree)
    requires NoRows(files, ctx.tenant) && Elements(scanned) == tree.Keys && AllPresent(Client(tree, map[]), scanned)
    requires StoredInv(cfg, s) && s.db.files == PushAll(cfg.hash, ctx, Pair(Client(tree, map[]), files), scanned).files
    requires Enumerates(Listed(s.db.files, ctx.tenant), keys, list)
    ensures PullAll(cfg, s, ctx, Client(map[], map[]), list, clock).fs == tree
  {
    FirstPushMirrors(cfg.hash, ctx, tree, files, scanned);
    PullRebuildsTree(cfg, s, ctx, tree, keys, list, clock);
  }

  predicate Lists(list: seq<FileMeta>, p: Path) { exists k :: 0 <= k < |list| && list[k].path == p }

  /** A path that is neither listed nor the part file of one that is does not come to be. */
  lemma {:induction false} UnlistedStaysAway(cfg: Config, s: State, ctx: Ctx, list: seq<FileMeta>, clock: nat -> string, p: Path)
    requires forall j, k :: 0 <= j < k < |list| ==> list[j].path != list[k].path
    requires forall k :: 0 <= k < |list| ==> list[k].path != p && PartOf(list[k].path) != p
    ensures var c := PullAll(cfg, s, ctx, Client(map[], map[]), list, clock);
            p !in c.fs && forall q :: q in c.records ==> Lists(list, q)
  {
    if list != [] {
      var n := |list| - 1;
      UnlistedStaysAway(cfg, s, ctx, list[..n], clock, p);
      UnlistedNext(cfg, s, ctx, PullAll(cfg, s, ctx, Client(map[], map[]), list[..n], clock), list, clock(n), p);
    }
  }

  lemma UnlistedNext(cfg: Config, s: State, ctx: Ctx, c: Client, list: seq<FileMeta>, timestamp: string, p: Path)
    requires list != [] && p !in c.fs && list[|list| - 1].path != p && PartOf(list[|list| - 1].path) != p
    requires forall j, k :: 0 <= j < k < |list| ==> list[j].path != list[k].path
    requires forall q :: q in c.records ==> Lists(list[..|list| - 1], q)
    ensures var c' := PullOne(cfg, s, ctx, c, list[|list| - 1], timestamp);
            p !in c'.fs && forall q :: q in c'.records ==> Lists(list, q)
  {
    var n := |list| - 1;
    assert !Lists(list[..n], list[n].path);
    PullIsVerified(cfg.hash, c, list[n], Answer(cfg, s, ctx, c, list[n], timestamp), timestamp);
    var c' := PullOne(cfg, s, ctx, c, list[n], timestamp);
    forall q | q in c'.records ensures Lists(list, q) {
      if q in c.records {
        var k :| 0 <= k < n && list[..n][k].path == q;
        assert list[k].path == q;
      } else {
        assert list[n].path == q;
      }
    }
  }

  // ---- a pull into a tree that is not empty ----

  /** What pulling another row may write to. */
  function Reach(q: Path, timestamp: string): set<Path> {
    {q, PartOf(q), ConflictPath(q, timestamp), PartOf(ConflictPath(q, timestamp))}
  }

  /** Pulling the other listed rows does not touch this file, nor its part file. */
  predicate Apart(list: seq<FileMeta>, clock: nat -> string, k: nat)
    requires k < |list|
  {
    forall j :: 0 <= j < |list| && j != k ==>
      list[j].path != list[k].path
      && list[k].path !in Reach(list[j].path, clock(j)) && PartOf(list[k].path) !in Reach(list[j].path, clock(j))
  }

  /** As far as one path goes. */
  predicate SameFor(c: Client, c': Client, p: Path) {
    && SameAt(c.fs, c'.fs, p) && SameAt(c.fs, c'.fs, PartOf(p))
    && (p in c'.records <==> p in c.records) && (p in c.records ==> c'.records[p] == c.records[p])
  }

  lemma OthersLeaveIt(cfg: Config, s: State, ctx: Ctx, c: Client, meta: FileMeta, timestamp: string, p: Path)
    requires p != meta.path && p !in Reach(meta.path, timestamp) && PartOf(p) !in Reach(meta.path, timestamp)
    ensures SameFor(c, PullOne(cfg, s, ctx, c, meta, timestamp), p)
  {
    PullIsVerified(cfg.hash, c, meta, Answer(cfg, s, ctx, c, meta, timestamp), timestamp);
    assert Scratch(PlanPull(cfg.hash, c, meta, timestamp)) <= Reach(meta.path, timestamp);
  }

  lemma SameOn(a: Client, b: Client, c: Client, p: Path)
    requires SameFor(a, b, p) && SameFor(b, c, p)
    ensures SameFor(a, c, p)
  {
  }

  /** One turn for another path. */
  lemma NotItsTurn(cfg: Config, s: State, ctx: Ctx, c: Client, list: seq<FileMeta>, clock: nat -> string, k: nat, j: nat)
    requires k < |list| && j < |list| && j != k && Apart(list, clock, k)
    ensures SameFor(PullAll(cfg, s, ctx, c, list[..j], clock), PullAll(cfg, s, ctx, c, list[..j + 1], clock), list[k].path)
  {
    PullAllNext(cfg, s, ctx, c, list, j, clock);
    OthersLeaveIt(cfg, s, ctx, PullAll(cfg, s, ctx, c, list[..j], clock), list[j], clock(j), list[k].path);
  }

  /** Client states, of which only one step may concern this path. */
  lemma {:induction false} SameWhileOthers(states: seq<Client>, p: Path, k: nat, m: nat, n: nat)
    requires m <= n < |states| && !(m <= k < n)
    requires forall j :: 0 <= j < |states| - 1 && j != k ==> SameFor(states[j], states[j + 1], p)
    ensures SameFor(states[m], states[n], p)
    decreases n - m
  {
    if m < n {
      SameWhileOthers(states, p, k, m, n - 1);
      SameOn(states[m], states[n - 1], states[n], p);
    }
  }

  /** The client after each number of rows. */
  function States(cfg: Config, s: State, ctx: Ctx, c: Client, list: seq<FileMeta>, clock: nat -> string): seq<Client> {
    seq(|list| + 1, n requires 0 <= n <= |list| => PullAll(cfg, s, ctx, c, list[..n], clock))
  }

  /** What a pull is to leave of a listed row, given what is stored for it. */
  predicate Pulled(h: Hasher, c: Client, c': Client, meta: FileMeta, stored: Bytes) {
    if UpToDate(c, meta) || BothChanged(h, c, meta) then
      SameAt(c.fs, c'.fs, meta.path) && meta.path in c'.records && c'.records[meta.path] == c.records[meta.path]
    else
      && meta.path in c'.fs && c'.fs[meta.path] == stored
      && meta.path in c'.records
      && c'.records[meta.path] == SyncRecord(meta.path, meta.contentHash, meta.version, None)
  }

  lemma OnItsTurn(cfg: Config, s: State, ctx: Ctx, start: Client, c: Client, meta: FileMeta, timestamp: string)
    requires SameFor(start, c, meta.path)
    requires StoredAt(cfg, s, ctx, meta.path).Some? && cfg.hash(StoredAt(cfg, s, ctx, meta.path).value) == meta.contentHash
    requires GoodStart(start.fs, PartOf(meta.path), StoredAt(cfg, s, ctx, meta.path).value)
    ensures Pulled(cfg.hash, start, PullOne(cfg, s, ctx, c, meta, timestamp), meta, StoredAt(cfg, s, ctx, meta.path).value)
  {
    PlanIff(cfg.hash, c, meta, timestamp);
    PullIsVerified(cfg.hash, c, meta, Answer(cfg, s, ctx, c, meta, timestamp), timestamp);
    ConflictPathIsNew(meta.path, timestamp);
    if PlanPull(cfg.hash, c, meta, timestamp).Install? { ServedThenFetched(cfg, s, ctx, c.fs, meta.path, meta.path); }
  }

  /**
   * A whole pull with nothing lost, into any tree: each listed file whose stored content is the
   * listed one and whose part file is a good start ends as stored and recorded at the listed
   * version, unless it was up to date already, or changed on both sides; then it stays as it was.
   */
  lemma PullConverges(cfg: Config, s: State, ctx: Ctx, c: Client, list: seq<FileMeta>, clock: nat -> string, k: nat)
    requires k < |list| && Apart(list, clock, k)
    requires StoredAt(cfg, s, ctx, list[k].path).Some?
    requires cfg.hash(StoredAt(cfg, s, ctx, list[k].path).value) == list[k].contentHash
    requires GoodStart(c.fs, PartOf(list[k].path), StoredAt(cfg, s, ctx, list[k].path).value)
    ensures Pulled(cfg.hash, c, PullAll(cfg, s, ctx, c, list, clock), list[k], StoredAt(cfg, s, ctx, list[k].path).value)
  {
    AroundItsTurn(cfg, s, ctx, c, list, clock, k);
    PullAllNext(cfg, s, ctx, c, list, k, clock);
    OnItsTurn(cfg, s, ctx, c, PullAll(cfg, s, ctx, c, list[..k], clock), list[k], clock(k));
    StaysPulled(cfg.hash, c, PullAll(cfg, s, ctx, c, list[..k + 1], clock), PullAll(cfg, s, ctx, c, list, clock), list[k],
                StoredAt(cfg, s, ctx, list[k].path).value);
  }

  lemma AroundItsTurn(cfg: Config, s: State, ctx: Ctx, c: Client, list: seq<FileMeta>, clock: nat -> string, k: nat)
    requires k < |list| && Apart(list, clock, k)
    ensures SameFor(c, PullAll(cfg, s, ctx, c, list[..k], clock), list[k].path)
    ensures SameFor(PullAll(cfg, s, ctx, c, list[..k + 1], clock), PullAll(cfg, s, ctx, c, list, clock), list[k].path)
  {
    var states := States(cfg, s, ctx, c, list, clock);
    forall j | 0 <= j < |list| && j != k ensures SameFor(states[j], states[j + 1], list[k].path) {
      NotItsTurn(cfg, s, ctx, c, list, clock, k, j);
    }
    SameWhileOthers(states, list[k].path, k, 0, k);
    SameWhileOthers(states, list[k].path, k, k + 1, |list|);
    assert list[..0] == [] && list[..|list|] == list;
  }

  lemma StaysPulled(h: Hasher, start: Client, c: Client, c': Client, meta: FileMeta, stored: Bytes)
    requires Pulled(h, start, c, meta, stored) && SameFor(c, c', meta.path)
    ensures Pulled(h, start, c', meta, stored)
  {
  }

  /** Any row, deleted or not, has content of its own hash to serve. */
  lemma RowsAreServed(cfg: Config, s: State, ctx: Ctx, path: Path)
    requires StoredInv(cfg, s) && MakeKey(ctx.tenant, path) in s.db.files
    requires s.db.files[MakeKey(ctx.tenant, path)].tenant == ctx.tenant
    ensures StoredAt(cfg, s, ctx, path).Some?
    ensures cfg.hash(StoredAt(cfg, s, ctx, path).value) == s.db.files[MakeKey(ctx.tenant, path)].contentHash
    ensures ServeFile(cfg, s, ctx, path, 0) == Ok((false, StoredAt(cfg, s, ctx, path).value))
  {
    assert RowStored(cfg, s.disk, s.db.files[MakeKey(ctx.tenant, path)]);
  }

  /** What a client has pushed it does not pull back. */
  lemma PushedIsUpToDate(h: Hasher, ctx: Ctx, w: Pair, path: Path, timestamp: string)
    requires path in w.client.fs && NeedsUpload(h, w.client, path)
    ensures var w' := PushFile(h, ctx, w, path);
            PlanPull(h, w'.client, w'.files[MakeKey(ctx.tenant, path)], timestamp) == Skip
  {
  }
}
