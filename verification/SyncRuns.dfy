/**
 * Any number of clients of one tenant, working at once. Reading a file, the server call, and the
 * record written on its reply are separate steps, and so are deciding what to do with a listed row
 * and finishing its download; replies get lost, users edit their trees in between; deletes on the
 * server are atomic here.
 */
module SyncRuns {
  import opened Prelude
  import opened Tables
  import opened ClientModel

  datatype Mode =
    | Free
      // a create, or a finalize of an upload opened for this hash, has been answered but not recorded
    | Awaiting(path: Path, hash: Hash, version: nat)
      // the listed rows still to be pulled
    | Pulling(queue: seq<FileMeta>)
      // what to do with this row is decided, its download not finished; `before` is the client at
      // the decision, of which the program keeps only the plan
    | Fetching(meta: FileMeta, timestamp: string, plan: Plan, before: Client, queue: seq<FileMeta>)

  datatype Peer = Peer(client: Client, mode: Mode)

  /** `history[p]` lists the hashes of all puts ever made at `p`; the server does not keep it. */
  datatype World = World(files: map<string, FileMeta>, history: map<Path, seq<Hash>>, peers: map<nat, Peer>)

  /** What one client, or its user, does. */
  datatype Action =
      // `content` is what was read of the file, whatever it holds by now
    | Push(path: Path, content: Bytes)
    | Reply
    | GiveUp
    | Open(path: Path, content: Bytes, id: UploadId)
    | DropRecord(path: Path)
    | Edit(path: Path, content: Bytes)
    | Remove(path: Path)
    | List(queue: seq<FileMeta>)
    | Decide(timestamp: string)
    | Finish(resp: Response)

  datatype Step =
    | Act(i: nat, action: Action)
      // another program of the same tenant
    | ForeignPut(path: Path, size: nat, hash: Hash)
    | ServerDelete(path: Path)

  function HistoryOf(w: World, p: Path): seq<Hash> { if p in w.history then w.history[p] else [] }

  function Put(w: World, ctx: Ctx, path: Path, size: nat, hash: Hash): World {
    w.(files := WithRow(w.files, ctx, path, size, hash), history := w.history[path := HistoryOf(w, path) + [hash]])
  }

  /** The record `resume_upload` writes before it sends the first chunk. */
  function OpenRecord(c: Client, path: Path, hash: Hash, id: UploadId): Client {
    var record := if path in c.records then c.records[path].(uploadId := Some(id)) else SyncRecord(path, hash, 0, Some(id));
    c.(records := c.records[path := record])
  }

  function SetPeer(w: World, i: nat, peer: Peer): World { w.(peers := w.peers[i := peer]) }

  /** Rows of the tenant's listing, no path twice. */
  ghost predicate FromListing(files: map<string, FileMeta>, t: Tenant, queue: seq<FileMeta>) {
    && (forall k :: 0 <= k < |queue| ==>
          MakeKey(t, queue[k].path) in files && queue[k] == files[MakeKey(t, queue[k].path)] && !queue[k].isDeleted)
    && forall j, k :: 0 <= j < k < |queue| ==> queue[j].path != queue[k].path
  }

  /** One action of a client; only a push changes the rows. */
  ghost function ActPeer(h: Hasher, ctx: Ctx, files: map<string, FileMeta>, peer: Peer, action: Action): Peer {
    var c := peer.client;
    match action
    case Push(path, content) =>
      if !peer.mode.Free? then peer
      else Peer(c, Awaiting(path, h(content), PutRow(files, ctx, path, |content|, h(content)).version))
    case Reply =>
      if !peer.mode.Awaiting? then peer
      else
        var Awaiting(path, hash, version) := peer.mode;
        Peer(c.(records := c.records[path := SyncRecord(path, hash, version, None)]), Free)
    case GiveUp => Peer(c, Free)
    case Open(path, content, id) =>
      if !peer.mode.Free? then peer else Peer(OpenRecord(c, path, h(content), id), Free)
    case DropRecord(path) =>
      if !peer.mode.Free? then peer else Peer(c.(records := c.records - {path}), Free)
    case Edit(path, content) => peer.(client := c.(fs := c.fs[path := content]))
    case Remove(path) => peer.(client := c.(fs := c.fs - {path}))
    case List(queue) =>
      if !peer.mode.Free? || !FromListing(files, ctx.tenant, queue) then peer else Peer(c, Pulling(queue))
    case Decide(timestamp) =>
      if !peer.mode.Pulling? || peer.mode.queue == [] then peer
      else
        var meta, rest := peer.mode.queue[0], peer.mode.queue[1..];
        var plan := PlanPull(h, c, meta, timestamp);
        Peer(c, if plan.Skip? then Pulling(rest) else Fetching(meta, timestamp, plan, c, rest))
    case Finish(resp) =>
      if !peer.mode.Fetching? then peer
      else Peer(CarryOut(h, c, peer.mode.meta, peer.mode.plan, resp).0, Pulling(peer.mode.queue))
  }

  ghost function Next(h: Hasher, ctx: Ctx, w: World, step: Step): World {
    match step
    case ForeignPut(path, size, hash) => Put(w, ctx, path, size, hash)
    case ServerDelete(path) => w.(files := MarkDeleted(w.files, MakeKey(ctx.tenant, path)))
    case Act(i, action) =>
      if i !in w.peers then w
      else
        var peer := w.peers[i];
        var w' := if action.Push? && peer.mode.Free?
                  then Put(w, ctx, action.path, |action.content|, h(action.content)) else w;
        SetPeer(w', i, ActPeer(h, ctx, w.files, peer, action))
  }

  ghost function Run(h: Hasher, ctx: Ctx, w: World, steps: seq<Step>): World
    decreases |steps|
  {
    if steps == [] then w else Run(h, ctx, Next(h, ctx, w, steps[0]), steps[1..])
  }

  /** No rows yet, clients with trees of their own and no records. */
  predicate Fresh(w: World) {
    w.files == map[] && w.history == map[]
    && forall i :: i in w.peers ==> w.peers[i].client.records == map[] && w.peers[i].mode.Free?
  }

  // ---- the invariant ----

  /** Version `v` of `p` was the put of `hash`. */
  predicate Names(history: map<Path, seq<Hash>>, p: Path, v: nat, hash: Hash) {
    p in history && 1 <= v <= |history[p]| && history[p][v - 1] == hash
  }

  /** A row's version counts the puts at its path; its hash is the last of them. */
  ghost predicate RowsCounted(files: map<string, FileMeta>, t: Tenant, history: map<Path, seq<Hash>>) {
    forall p :: (MakeKey(t, p) in files <==> p in history)
      && (p in history ==>
            && files[MakeKey(t, p)].path == p
            && files[MakeKey(t, p)].version == |history[p]|
            && Names(history, p, |history[p]|, files[MakeKey(t, p)].contentHash))
  }

  ghost predicate RecordsOk(history: map<Path, seq<Hash>>, c: Client) {
    forall p :: p in c.records ==>
      c.records[p].serverVersion == 0 || Names(history, p, c.records[p].serverVersion, c.records[p].localHash)
  }

  ghost predicate QueueOk(history: map<Path, seq<Hash>>, c: Client, queue: seq<FileMeta>) {
    && (forall k :: 0 <= k < |queue| ==>
          && Names(history, queue[k].path, queue[k].version, queue[k].contentHash)
          && (queue[k].path in c.records ==> c.records[queue[k].path].serverVersion <= queue[k].version))
    && forall j, k :: 0 <= j < k < |queue| ==> queue[j].path != queue[k].path
  }

  ghost predicate PeerOk(h: Hasher, history: map<Path, seq<Hash>>, peer: Peer) {
    RecordsOk(history, peer.client)
    && match peer.mode
       case Free => true
       case Awaiting(path, hash, version) => Names(history, path, version, hash)
       case Pulling(queue) => QueueOk(history, peer.client, queue)
       case Fetching(meta, timestamp, plan, before, queue) =>
         && QueueOk(history, peer.client, [meta] + queue)
         && plan == PlanPull(h, before, meta, timestamp) && !plan.Skip? && before.records == peer.client.records
  }

  ghost predicate WorldOk(h: Hasher, ctx: Ctx, w: World) {
    RowsCounted(w.files, ctx.tenant, w.history) && forall i :: i in w.peers ==> PeerOk(h, w.history, w.peers[i])
  }

  lemma SameKey(t: Tenant, p: Path, q: Path)
    requires MakeKey(t, p) == MakeKey(t, q)
    ensures p == q
  {
    KeyInjective(t, t, p, q);
  }

  lemma PutCountsAt(w: World, ctx: Ctx, path: Path, size: nat, hash: Hash, p: Path)
    requires RowsCounted(w.files, ctx.tenant, w.history)
    ensures var w' := Put(w, ctx, path, size, hash);
            && (MakeKey(ctx.tenant, p) in w'.files <==> p in w'.history)
            && (p in w'.history ==>
                  && w'.files[MakeKey(ctx.tenant, p)].path == p
                  && w'.files[MakeKey(ctx.tenant, p)].version == |w'.history[p]|
                  && Names(w'.history, p, |w'.history[p]|, w'.files[MakeKey(ctx.tenant, p)].contentHash))
  {
    assert MakeKey(ctx.tenant, p) in w.files <==> p in w.history;
    assert MakeKey(ctx.tenant, path) in w.files <==> path in w.history;
    if MakeKey(ctx.tenant, p) == MakeKey(ctx.tenant, path) { SameKey(ctx.tenant, p, path); }
  }

  lemma PutCounts(h: Hasher, w: World, ctx: Ctx, path: Path, size: nat, hash: Hash)
    requires WorldOk(h, ctx, w)
    ensures WorldOk(h, ctx, Put(w, ctx, path, size, hash))
    ensures Names(Put(w, ctx, path, size, hash).history, path, PutRow(w.files, ctx, path, size, hash).version, hash)
  {
    var w' := Put(w, ctx, path, size, hash);
    assert RowsCounted(w'.files, ctx.tenant, w'.history) by {
      forall p { PutCountsAt(w, ctx, path, size, hash, p); }
    }
    PutCountsAt(w, ctx, path, size, hash, path);
    HistoryGrows(h, w, w');
  }

  ghost predicate Longer(a: map<Path, seq<Hash>>, b: map<Path, seq<Hash>>) {
    forall p :: p in a ==> p in b && a[p] <= b[p]
  }

  lemma HistoryGrows(h: Hasher, w: World, w': World)
    requires Longer(w.history, w'.history) && w'.peers == w.peers
    requires forall i :: i in w.peers ==> PeerOk(h, w.history, w.peers[i])
    ensures forall i :: i in w.peers ==> PeerOk(h, w'.history, w.peers[i])
  {
  }

  lemma PeerKeeps(h: Hasher, ctx: Ctx, w: World, i: nat, peer: Peer)
    requires WorldOk(h, ctx, w) && PeerOk(h, w.history, peer)
    ensures WorldOk(h, ctx, SetPeer(w, i, peer))
  {
  }

  /** What a client knows is never ahead of the rows it lists. */
  lemma ListKeeps(h: Hasher, ctx: Ctx, w: World, c: Client, queue: seq<FileMeta>)
    requires WorldOk(h, ctx, w) && RecordsOk(w.history, c) && FromListing(w.files, ctx.tenant, queue)
    ensures QueueOk(w.history, c, queue)
  {
    forall k | 0 <= k < |queue|
      ensures Names(w.history, queue[k].path, queue[k].version, queue[k].contentHash)
      ensures queue[k].path in c.records ==> c.records[queue[k].path].serverVersion <= queue[k].version
    {
      assert MakeKey(ctx.tenant, queue[k].path) in w.files;
      assert queue[k].path in w.history;
    }
  }

  lemma FinishKeeps(h: Hasher, history: map<Path, seq<Hash>>, peer: Peer, resp: Response)
    requires PeerOk(h, history, peer) && peer.mode.Fetching?
    ensures var c' := CarryOut(h, peer.client, peer.mode.meta, peer.mode.plan, resp).0;
            RecordsOk(history, c') && QueueOk(history, c', peer.mode.queue)
  {
    var Fetching(meta, timestamp, _, before, queue) := peer.mode;
    QueueSplits(history, peer.client, meta, queue);
    RecordKeeps(h, history, before, peer.client, meta, timestamp, queue, resp);
  }

  lemma RecordKeeps(h: Hasher, history: map<Path, seq<Hash>>, before: Client, c: Client, meta: FileMeta, timestamp: string,
                    queue: seq<FileMeta>, resp: Response)
    requires RecordsOk(history, c) && QueueOk(history, c, queue) && Names(history, meta.path, meta.version, meta.contentHash)
    requires forall k :: 0 <= k < |queue| ==> queue[k].path != meta.path
    ensures var c' := CarryOut(h, c, meta, PlanPull(h, before, meta, timestamp), resp).0;
            RecordsOk(history, c') && QueueOk(history, c', queue)
  {
    PlanIsVerified(h, before, c, meta, resp, timestamp);
  }

  lemma QueueSplits(history: map<Path, seq<Hash>>, c: Client, meta: FileMeta, queue: seq<FileMeta>)
    requires QueueOk(history, c, [meta] + queue)
    ensures QueueOk(history, c, queue) && Names(history, meta.path, meta.version, meta.contentHash)
    ensures meta.path in c.records ==> c.records[meta.path].serverVersion <= meta.version
    ensures forall k :: 0 <= k < |queue| ==> queue[k].path != meta.path
  {
    var all := [meta] + queue;
    assert all[0] == meta && forall k :: 0 <= k < |queue| ==> all[k + 1] == queue[k];
  }

  lemma ActKeeps(h: Hasher, ctx: Ctx, w: World, peer: Peer, action: Action)
    requires WorldOk(h, ctx, w) && PeerOk(h, w.history, peer) && !action.Push?
    ensures PeerOk(h, w.history, ActPeer(h, ctx, w.files, peer, action))
  {
    match action
    case List(queue) =>
      if peer.mode.Free? && FromListing(w.files, ctx.tenant, queue) { ListKeeps(h, ctx, w, peer.client, queue); }
    case Decide(_) =>
      if peer.mode.Pulling? && peer.mode.queue != [] { assert [peer.mode.queue[0]] + peer.mode.queue[1..] == peer.mode.queue; }
    case Finish(resp) =>
      if peer.mode.Fetching? { FinishKeeps(h, w.history, peer, resp); }
    case _ =>
  }

  lemma StepKeeps(h: Hasher, ctx: Ctx, w: World, step: Step)
    requires WorldOk(h, ctx, w)
    ensures WorldOk(h, ctx, Next(h, ctx, w, step))
  {
    match step
    case ForeignPut(path, size, hash) => PutCounts(h, w, ctx, path, size, hash);
    case ServerDelete(path) =>
      forall p | MakeKey(ctx.tenant, p) == MakeKey(ctx.tenant, path) ensures p == path { SameKey(ctx.tenant, p, path); }
      assert forall p :: MakeKey(ctx.tenant, p) in w.files <==> p in w.history;
    case Act(i, action) =>
      if i in w.peers {
        var peer := w.peers[i];
        var c := peer.client;
        if action.Push? {
          if peer.mode.Free? {
            var size, hash := |action.content|, h(action.content);
            PutCounts(h, w, ctx, action.path, size, hash);
            PeerKeeps(h, ctx, Put(w, ctx, action.path, size, hash), i, ActPeer(h, ctx, w.files, peer, action));
          } else {
            PeerKeeps(h, ctx, w, i, peer);
          }
        } else {
          ActKeeps(h, ctx, w, peer, action);
          PeerKeeps(h, ctx, w, i, ActPeer(h, ctx, w.files, peer, action));
        }
      }
  }

  lemma {:induction false} RunKeeps(h: Hasher, ctx: Ctx, w: World, steps: seq<Step>)
    requires WorldOk(h, ctx, w)
    ensures WorldOk(h, ctx, Run(h, ctx, w, steps))
    decreases |steps|
  {
    if steps != [] {
      StepKeeps(h, ctx, w, steps[0]);
      RunKeeps(h, ctx, Next(h, ctx, w, steps[0]), steps[1..]);
    }
  }

  // ---- the claims ----

  /**
   * In every reachable state a path and a version name one content: the row's version is the
   * number of puts, and any two records with the same path and version carry the same hash.
   */
  lemma VersionsNameContents(h: Hasher, ctx: Ctx, start: World, steps: seq<Step>, i: nat, j: nat, p: Path)
    requires Fresh(start)
    ensures var w := Run(h, ctx, start, steps);
            && (MakeKey(ctx.tenant, p) in w.files ==> w.files[MakeKey(ctx.tenant, p)].version == |HistoryOf(w, p)|)
            && (i in w.peers && j in w.peers && p in w.peers[i].client.records && p in w.peers[j].client.records
                && w.peers[i].client.records[p].serverVersion == w.peers[j].client.records[p].serverVersion >= 1 ==>
                  w.peers[i].client.records[p].localHash == w.peers[j].client.records[p].localHash)
  {
    RunKeeps(h, ctx, start, steps);
    var w := Run(h, ctx, start, steps);
    assert MakeKey(ctx.tenant, p) in w.files <==> p in w.history;
    if i in w.peers && j in w.peers {
      assert PeerOk(h, w.history, w.peers[i]) && PeerOk(h, w.history, w.peers[j]);
    }
  }

  /** Records are never ahead of the server, and agree with a row of the same version. */
  lemma RecordsBehindServer(h: Hasher, ctx: Ctx, start: World, steps: seq<Step>, i: nat, p: Path)
    requires Fresh(start)
    ensures var w := Run(h, ctx, start, steps);
            i in w.peers && p in w.peers[i].client.records && w.peers[i].client.records[p].serverVersion >= 1 ==>
              var record, key := w.peers[i].client.records[p], MakeKey(ctx.tenant, p);
              && key in w.files && record.serverVersion <= w.files[key].version
              && (record.serverVersion == w.files[key].version ==> record.localHash == w.files[key].contentHash)
  {
    RunKeeps(h, ctx, start, steps);
    var w := Run(h, ctx, start, steps);
    assert MakeKey(ctx.tenant, p) in w.files <==> p in w.history;
    if i in w.peers {
      assert PeerOk(h, w.history, w.peers[i]);
    }
  }

  /** The client is about to finish a download, and `p` is tracked, edited, and no scratch of this one. */
  ghost predicate EditAtStake(h: Hasher, peer: Peer, p: Path) {
    && peer.mode.Fetching? && p in peer.client.records && Edited(h, peer.client, p)
    && (p == peer.mode.meta.path || p !in Scratch(peer.mode.plan))
  }

  /** The pull was deciding about `p` itself, and `p` was not edited then. */
  ghost predicate EditedSince(h: Hasher, peer: Peer, p: Path)
    requires peer.mode.Fetching?
  {
    p == peer.mode.meta.path && !Edited(h, peer.mode.before, p)
  }

  /**
   * An edit older than the decision stays; one made since is replaced exactly if the download
   * succeeds, unless it was by chance the listed content.
   */
  ghost predicate KeepsEdit(h: Hasher, peer: Peer, resp: Response, fs': map<Path, Bytes>, p: Path)
    requires EditAtStake(h, peer, p)
  {
    var Fetching(meta, _, plan, _, _) := peer.mode;
    var fs := peer.client.fs;
    && (!EditedSince(h, peer, p) ==> SameAt(fs, fs', p))
    && (h(fs[p]) != meta.contentHash ==>
          (!SameAt(fs, fs', p) <==> EditedSince(h, peer, p) && CarryOut(h, peer.client, meta, plan, resp).1))
  }

  lemma FinishKeepsEdit(h: Hasher, history: map<Path, seq<Hash>>, peer: Peer, resp: Response, p: Path)
    requires PeerOk(h, history, peer) && EditAtStake(h, peer, p)
    ensures KeepsEdit(h, peer, resp, CarryOut(h, peer.client, peer.mode.meta, peer.mode.plan, resp).0.fs, p)
  {
    var Fetching(meta, timestamp, plan, before, queue) := peer.mode;
    PlanIsVerified(h, before, peer.client, meta, resp, timestamp);
    QueueSplits(history, peer.client, meta, queue);
    if p == meta.path && Edited(h, before, p) { EditOverwrittenIff(h, before, meta, timestamp); }
  }

  lemma FinishStep(h: Hasher, ctx: Ctx, w: World, i: nat, resp: Response)
    requires i in w.peers && w.peers[i].mode.Fetching?
    ensures var peer := w.peers[i];
            i in Next(h, ctx, w, Act(i, Finish(resp))).peers
            && Next(h, ctx, w, Act(i, Finish(resp))).peers[i].client
               == CarryOut(h, peer.client, peer.mode.meta, peer.mode.plan, resp).0
  {
  }

  /**
   * In every reachable state and whatever the server sends, finishing a pull keeps the tracked
   * files that were edited when it decided, and replaces exactly the one it pulls if that was
   * edited only since then.
   */
  lemma EditsSurvivePullIff(h: Hasher, ctx: Ctx, start: World, steps: seq<Step>, i: nat, resp: Response, p: Path)
    requires Fresh(start)
    ensures var w := Run(h, ctx, start, steps);
            i in w.peers && EditAtStake(h, w.peers[i], p) ==>
              KeepsEdit(h, w.peers[i], resp, Next(h, ctx, w, Act(i, Finish(resp))).peers[i].client.fs, p)
  {
    RunKeeps(h, ctx, start, steps);
    var w := Run(h, ctx, start, steps);
    if i in w.peers && EditAtStake(h, w.peers[i], p) {
      assert PeerOk(h, w.history, w.peers[i]);
      FinishKeepsEdit(h, w.history, w.peers[i], resp, p);
      FinishStep(h, ctx, w, i, resp);
    }
  }

  // ---- an edit that is lost ----

  /** One client pushes a file, another program replaces it, and its user edits it while it is pulled. */
  function EditDuringDownload(ctx: Ctx, p: Path, row: FileMeta, mine: Bytes, theirs: Bytes, edit: Bytes, hash: Hash): seq<Step> {
    [Act(0, Push(p, mine)), Act(0, Reply), ForeignPut(p, |theirs|, hash), Act(0, List([row])), Act(0, Decide("")),
     Act(0, Edit(p, edit)), Act(0, Finish(Delivered(false, theirs, true)))]
  }

  lemma {:induction false} RunNext(h: Hasher, ctx: Ctx, w: World, steps: seq<Step>, k: nat)
    requires k < |steps|
    ensures Run(h, ctx, w, steps[..k + 1]) == Next(h, ctx, Run(h, ctx, w, steps[..k]), steps[k])
    decreases k
  {
    if k == 0 {
      assert steps[..1][1..] == [] && steps[..0] == [];
    } else {
      assert steps[..k + 1][1..] == steps[1..][..k] && steps[..k][1..] == steps[1..][..k - 1];
      RunNext(h, ctx, Next(h, ctx, w, steps[0]), steps[1..], k - 1);
    }
  }

  /** The client after its push, and later with its decision made. */
  function Pushed(h: Hasher, p: Path, mine: Bytes): Client {
    Client(map[p := mine], map[p := SyncRecord(p, h(mine), 1, None)])
  }

  lemma PushThenReplaced(h: Hasher, ctx: Ctx, start: World, p: Path, row: FileMeta, mine: Bytes, theirs: Bytes, edit: Bytes)
    requires start == World(map[], map[], map[0 := Peer(Client(map[p := mine], map[]), Free)])
    requires row == FileMeta(p, |theirs|, h(theirs), 2, false, ctx.tenant, ctx.user)
    ensures var w := Run(h, ctx, start, EditDuringDownload(ctx, p, row, mine, theirs, edit, h(theirs))[..3]);
            && w.peers == map[0 := Peer(Pushed(h, p, mine), Free)]
            && w.files == map[MakeKey(ctx.tenant, p) := row]
  {
    var steps := EditDuringDownload(ctx, p, row, mine, theirs, edit, h(theirs));
    assert steps[..0] == [];
    RunNext(h, ctx, start, steps, 0);
    RunNext(h, ctx, start, steps, 1);
    RunNext(h, ctx, start, steps, 2);
  }

  lemma ListThenDecide(h: Hasher, ctx: Ctx, w: World, p: Path, row: FileMeta, mine: Bytes)
    requires w.peers == map[0 := Peer(Pushed(h, p, mine), Free)] && w.files == map[MakeKey(ctx.tenant, p) := row]
    requires row.path == p && row.version == 2 && !row.isDeleted
    ensures Next(h, ctx, Next(h, ctx, w, Act(0, List([row]))), Act(0, Decide(""))).peers
            == map[0 := Peer(Pushed(h, p, mine), Fetching(row, "", Install(p), Pushed(h, p, mine), []))]
  {
    assert [row][1..] == [];
  }

  lemma EditThenFinish(h: Hasher, ctx: Ctx, w: World, p: Path, row: FileMeta, mine: Bytes, theirs: Bytes, edit: Bytes)
    requires w.peers == map[0 := Peer(Pushed(h, p, mine), Fetching(row, "", Install(p), Pushed(h, p, mine), []))]
    requires row.path == p && row.contentHash == h(theirs) && h(edit) != h(mine)
    ensures var w1 := Next(h, ctx, w, Act(0, Edit(p, edit)));
            var w2 := Next(h, ctx, w1, Act(0, Finish(Delivered(false, theirs, true))));
            && 0 in w1.peers && w1.peers[0].client.fs == map[p := edit] && EditAtStake(h, w1.peers[0], p)
            && 0 in w2.peers && w2.peers[0].client.fs == map[p := theirs]
  {
    var w1 := Next(h, ctx, w, Act(0, Edit(p, edit)));
    assert w1.peers[0].client.fs == map[p := edit];
    FinishStep(h, ctx, w1, 0, Delivered(false, theirs, true));
    var part := PartOf(p);
    assert |part| != |p|;
    assert (map[p := edit][part := theirs] - {part})[p := theirs] == map[p := theirs];
  }

  lemma EditedThere(h: Hasher, ctx: Ctx, start: World, steps: seq<Step>, p: Path, row: FileMeta, mine: Bytes, theirs: Bytes, edit: Bytes)
    requires |steps| == 7 && steps[5] == Act(0, Edit(p, edit)) && steps[6] == Act(0, Finish(Delivered(false, theirs, true)))
    requires Run(h, ctx, start, steps[..5]).peers
             == map[0 := Peer(Pushed(h, p, mine), Fetching(row, "", Install(p), Pushed(h, p, mine), []))]
    requires row.path == p && row.contentHash == h(theirs) && h(edit) != h(mine)
    ensures var w, w' := Run(h, ctx, start, steps[..6]), Run(h, ctx, start, steps[..7]);
            && 0 in w.peers && w.peers[0].client.fs == map[p := edit] && EditAtStake(h, w.peers[0], p)
            && 0 in w'.peers && w'.peers[0].client.fs == map[p := theirs]
  {
    EditThenFinish(h, ctx, Run(h, ctx, start, steps[..5]), p, row, mine, theirs, edit);
    RunNext(h, ctx, start, steps, 5);
    RunNext(h, ctx, start, steps, 6);
  }

  lemma DecidedThere(h: Hasher, ctx: Ctx, start: World, p: Path, row: FileMeta, mine: Bytes, theirs: Bytes, edit: Bytes)
    requires start == World(map[], map[], map[0 := Peer(Client(map[p := mine], map[]), Free)])
    requires row == FileMeta(p, |theirs|, h(theirs), 2, false, ctx.tenant, ctx.user)
    ensures Run(h, ctx, start, EditDuringDownload(ctx, p, row, mine, theirs, edit, h(theirs))[..5]).peers
            == map[0 := Peer(Pushed(h, p, mine), Fetching(row, "", Install(p), Pushed(h, p, mine), []))]
  {
    var steps := EditDuringDownload(ctx, p, row, mine, theirs, edit, h(theirs));
    PushThenReplaced(h, ctx, start, p, row, mine, theirs, edit);
    RunNext(h, ctx, start, steps, 3);
    RunNext(h, ctx, start, steps, 4);
    ListThenDecide(h, ctx, Run(h, ctx, start, steps[..3]), p, row, mine);
  }

  /** The tracked file is edited before the last step, and after it the edit is gone. */
  lemma EditDuringDownloadIsLost(h: Hasher, ctx: Ctx, p: Path, mine: Bytes, theirs: Bytes, edit: Bytes)
    requires h(edit) != h(mine) && edit != theirs
    ensures var start := World(map[], map[], map[0 := Peer(Client(map[p := mine], map[]), Free)]);
            var row := FileMeta(p, |theirs|, h(theirs), 2, false, ctx.tenant, ctx.user);
            var steps := EditDuringDownload(ctx, p, row, mine, theirs, edit, h(theirs));
            var w, w' := Run(h, ctx, start, steps[..6]), Run(h, ctx, start, steps[..7]);
            && Fresh(start) && steps[..7] == steps && 0 in w.peers && 0 in w'.peers
            && w.peers[0].client.fs == map[p := edit] && EditAtStake(h, w.peers[0], p)
            && w'.peers[0].client.fs == map[p := theirs]
  {
    var start := World(map[], map[], map[0 := Peer(Client(map[p := mine], map[]), Free)]);
    var row := FileMeta(p, |theirs|, h(theirs), 2, false, ctx.tenant, ctx.user);
    var steps := EditDuringDownload(ctx, p, row, mine, theirs, edit, h(theirs));
    DecidedThere(h, ctx, start, p, row, mine, theirs, edit);
    EditedThere(h, ctx, start, steps, p, row, mine, theirs, edit);
  }
}
