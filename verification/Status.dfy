/** `status` against what push and pull would do on the same snapshot. */
module Status {
  import opened Prelude
  import opened Tables
  import opened ClientModel
  import opened PushModel
  import opened SyncRuns

  datatype Label =
    | NewLocal
    | ConflictBoth
    | UpdateLocal
    | UpdateServer
    | NoUpdate
    | NewServer
    | DeletedLocal
    | Unlabelled

  /** The first listed row at a path. */
  function Find(listing: seq<FileMeta>, path: Path): (r: Option<FileMeta>)
    ensures r.Some? ==> r.value in listing && r.value.path == path
    ensures r.None? ==> forall m :: m in listing ==> m.path != path
  {
    if listing == [] then None
    else if listing[0].path == path then Some(listing[0])
    else Find(listing[1..], path)
  }

  /** The label of a scanned local file. */
  function LocalLabel(h: Hasher, c: Client, listing: seq<FileMeta>, path: Path): Label
    requires path in c.fs
  {
    if path !in c.records then NewLocal
    else
      var record := c.records[path];
      var server := Find(listing, path);
      if h(c.fs[path]) != record.localHash then
        if server.Some? && server.value.version > record.serverVersion then ConflictBoth else UpdateLocal
      else if server.Some? && server.value.contentHash != record.localHash then UpdateServer
      else NoUpdate
  }

  /** The label of a listed file that was not scanned. */
  function ServerLabel(c: Client, meta: FileMeta): Label {
    if meta.path !in c.records then NewServer
    else if meta.path !in c.fs then DeletedLocal
    else Unlabelled
  }

  predicate UniquePaths(listing: seq<FileMeta>) {
    forall i, j :: 0 <= i < j < |listing| ==> listing[i].path != listing[j].path
  }

  lemma FindsIt(listing: seq<FileMeta>, meta: FileMeta)
    requires UniquePaths(listing) && meta in listing
    ensures Find(listing, meta.path) == Some(meta)
  {
  }

  /** What each label of a scanned file says about record, file and listed row. */
  lemma LocalLabelIff(h: Hasher, c: Client, listing: seq<FileMeta>, path: Path)
    requires path in c.fs && UniquePaths(listing)
    ensures var said := LocalLabel(h, c, listing, path);
            && (said.NewLocal? <==> path !in c.records)
            && (said.UpdateLocal? || said.ConflictBoth? <==> path in c.records && h(c.fs[path]) != c.records[path].localHash)
            && (forall meta :: meta in listing && meta.path == path ==>
                  && (said.ConflictBoth? <==> BothChanged(h, c, meta))
                  && (said.UpdateServer? <==> !NeedsUpload(h, c, path) && meta.contentHash != h(c.fs[path]))
                  && (said.NoUpdate? <==> !NeedsUpload(h, c, path) && meta.contentHash == h(c.fs[path])))
            && ((forall meta :: meta in listing ==> meta.path != path) ==>
                  (said.NoUpdate? <==> !NeedsUpload(h, c, path)) && !said.ConflictBoth? && !said.UpdateServer?)
  {
    forall meta | meta in listing && meta.path == path ensures Find(listing, path) == Some(meta) {
      FindsIt(listing, meta);
    }
  }

  /** And of a listed file: new without a record, deleted if push would delete it, else nothing. */
  lemma ServerLabelIff(c: Client, meta: FileMeta)
    ensures ServerLabel(c, meta).NewServer? <==> meta.path !in c.records
    ensures ServerLabel(c, meta).DeletedLocal? <==> meta.path in c.records && meta.path !in c.fs
    ensures ServerLabel(c, meta).Unlabelled? <==> meta.path in c.records && meta.path in c.fs
  {
  }

  /** A scanned and listed file is labelled a conflict exactly when pull would keep a conflict copy. */
  lemma ConflictIsPullConflict(h: Hasher, c: Client, listing: seq<FileMeta>, meta: FileMeta, timestamp: string)
    requires UniquePaths(listing) && meta in listing && meta.path in c.fs
    ensures LocalLabel(h, c, listing, meta.path).ConflictBoth? <==> PlanPull(h, c, meta, timestamp).Conflict?
  {
    FindsIt(listing, meta);
  }

  /** Push uploads exactly the files labelled new, updated locally, or in conflict. */
  lemma UploadedIsLabelled(h: Hasher, c: Client, listing: seq<FileMeta>, path: Path)
    requires path in c.fs
    ensures NeedsUpload(h, c, path) <==> LocalLabel(h, c, listing, path) in {NewLocal, UpdateLocal, ConflictBoth}
  {
  }

  /**
   * Push deletes a recorded file that is missing locally: every one labelled so, and besides those
   * only files the server no longer lists.
   */
  lemma DeletedIsLabelled(c: Client, listing: seq<FileMeta>, p: Path)
    ensures p in Missing(c) <==>
              (exists meta :: meta in listing && meta.path == p && ServerLabel(c, meta).DeletedLocal?)
              || (p in c.records && p !in c.fs && Find(listing, p).None?)
  {
    if Find(listing, p).Some? {
      var meta := Find(listing, p).value;
      assert meta in listing;
    }
  }

  /** Every file labelled new on the server is installed by pull. */
  lemma NewServerIsInstalled(h: Hasher, c: Client, meta: FileMeta, timestamp: string)
    requires ServerLabel(c, meta).NewServer?
    ensures PlanPull(h, c, meta, timestamp) == Install(meta.path)
  {
  }

  /** What whole runs guarantee between a record and a listed row at its path. */
  predicate RecordFits(c: Client, meta: FileMeta) {
    meta.path in c.records ==>
      var record := c.records[meta.path];
      && record.serverVersion <= meta.version
      && (record.serverVersion == meta.version ==> record.localHash == meta.contentHash)
  }

  /**
   * Then every file labelled updated on the server is installed too; of those labelled up to date
   * pull installs the ones whose version moved.
   */
  lemma UpdateServerIsInstalled(h: Hasher, c: Client, listing: seq<FileMeta>, meta: FileMeta, timestamp: string)
    requires UniquePaths(listing) && meta in listing && meta.path in c.fs && RecordFits(c, meta)
    ensures LocalLabel(h, c, listing, meta.path).UpdateServer? ==> PlanPull(h, c, meta, timestamp) == Install(meta.path)
    ensures LocalLabel(h, c, listing, meta.path).NoUpdate? ==>
              (PlanPull(h, c, meta, timestamp).Install? <==> c.records[meta.path].serverVersion < meta.version)
  {
    FindsIt(listing, meta);
  }

  /** Rows still to be pulled fit the puller's records, in every reachable state of any run. */
  lemma RunsFit(h: Hasher, ctx: Ctx, start: World, steps: seq<Step>, i: nat, k: nat)
    requires Fresh(start)
    ensures var w := Run(h, ctx, start, steps);
            i in w.peers && w.peers[i].mode.Pulling? && k < |w.peers[i].mode.queue| ==>
              RecordFits(w.peers[i].client, w.peers[i].mode.queue[k])
  {
    RunKeeps(h, ctx, start, steps);
    var w := Run(h, ctx, start, steps);
    if i in w.peers {
      assert PeerOk(h, w.history, w.peers[i]);
    }
  }
}
