/** The client's local tree and sync records, and what pulling one file does to them. */
module ClientModel {
  import opened Prelude
  import opened Tables

  type Hasher = Bytes -> Hash

  datatype SyncRecord = SyncRecord(path: Path, localHash: Hash, serverVersion: nat, uploadId: Option<UploadId>)

  /** Partial downloads are ordinary files of the tree, under their `.part` names. */
  datatype Client = Client(fs: map<Path, Bytes>, records: map<Path, SyncRecord>)

  // ---- names ----

  const PART: string := ".part"

  function PartOf(p: Path): Path { p + PART }

  /** The position after the last `c`, or 0. */
  function AfterLast(s: string, c: char): (k: nat)
    ensures k <= |s| && (k > 0 ==> s[k - 1] == c)
    ensures forall i :: k <= i < |s| ==> s[i] != c
  {
    if s == "" then 0
    else if s[|s| - 1] == c then |s|
    else AfterLast(s[..|s| - 1], c)
  }

  /** Stem and extension with its dot, as `std::path` splits a file name. */
  function SplitFile(name: string): (string, string) {
    var dot := AfterLast(name, '.');
    if dot <= 1 then (name, "") else (name[..dot - 1], name[dot - 1..])
  }

  /** Directory with its slash, stem and extension. */
  function SplitName(path: Path): (string, string, string) {
    var k := AfterLast(path, '/');
    var (stem, ext) := SplitFile(path[k..]);
    (path[..k], stem, ext)
  }

  function ConflictPath(path: Path, timestamp: string): Path {
    var (dir, stem, ext) := SplitName(path);
    dir + stem + ".conflict." + timestamp + ext
  }

  /** From this index on the character does not occur. */
  predicate Lacks(s: string, c: char, k: nat) { forall i :: k <= i < |s| ==> s[i] != c }

  /** The extension starts at the last dot, unless that is the first character or there is none. */
  predicate FileSplits(name: string, stem: string, ext: string) {
    name == stem + ext
    && if ext == "" then Lacks(stem, '.', 1) else stem != "" && ext[0] == '.' && Lacks(ext, '.', 1)
  }

  /** The directory is all up to the last slash. */
  predicate Splits(path: Path, dir: string, stem: string, ext: string) {
    && path == dir + (stem + ext) && FileSplits(stem + ext, stem, ext)
    && (dir != "" ==> dir[|dir| - 1] == '/') && Lacks(stem + ext, '/', 0)
  }

  lemma LastIs(s: string, c: char, k: nat)
    requires k <= |s| && (k > 0 ==> s[k - 1] == c) && Lacks(s, c, k)
    ensures AfterLast(s, c) == k
  {
    var j := AfterLast(s, c);
    if k > 0 { assert s[k - 1] == c; }
    if j > 0 { assert s[j - 1] == c; }
  }

  lemma FileSplitsIff(name: string, stem: string, ext: string)
    ensures FileSplits(name, stem, ext) <==> (stem, ext) == SplitFile(name)
  {
    if FileSplits(name, stem, ext) { OnlySplit(name, stem, ext); }
    var dot := AfterLast(name, '.');
    if dot > 1 { assert name == name[..dot - 1] + name[dot - 1..]; } else { assert name == name + ""; }
  }

  lemma OnlySplit(name: string, stem: string, ext: string)
    requires FileSplits(name, stem, ext)
    ensures (stem, ext) == SplitFile(name)
  {
    if ext != "" {
      assert forall i :: |stem| <= i < |name| ==> name[i] == ext[i - |stem|];
      LastIs(name, '.', |stem| + 1);
      assert name[..|stem|] == stem && name[|stem|..] == ext;
    } else {
      assert name == stem;
      var dot := AfterLast(name, '.');
      if dot > 0 { assert name[dot - 1] == '.'; }
    }
  }

  lemma SplitsIff(path: Path, dir: string, stem: string, ext: string)
    ensures Splits(path, dir, stem, ext) <==> (dir, stem, ext) == SplitName(path)
  {
    var k := AfterLast(path, '/');
    if Splits(path, dir, stem, ext) {
      var name := stem + ext;
      assert forall i :: |dir| <= i < |path| ==> path[i] == name[i - |dir|];
      LastIs(path, '/', |dir|);
      assert path[..|dir|] == dir && path[|dir|..] == name;
      FileSplitsIff(name, stem, ext);
    }
    FileSplitsIff(path[k..], SplitFile(path[k..]).0, SplitFile(path[k..]).1);
    assert path == path[..k] + path[k..];
  }

  /** The conflict marker and the time go between stem and extension. */
  lemma ConflictPathSplits(path: Path, timestamp: string, dir: string, stem: string, ext: string)
    requires Splits(path, dir, stem, ext)
    ensures ConflictPath(path, timestamp) == dir + stem + ".conflict." + timestamp + ext
  {
    SplitsIff(path, dir, stem, ext);
  }

  /** A conflict copy, and its partial download, never take the name of the file itself. */
  lemma ConflictPathIsNew(path: Path, timestamp: string)
    ensures |ConflictPath(path, timestamp)| == |path| + |".conflict."| + |timestamp|
    ensures ConflictPath(path, timestamp) != path && PartOf(ConflictPath(path, timestamp)) != path
  {
    var (dir, stem, ext) := SplitName(path);
    assert path == dir + stem + ext;
  }

  // ---- pulling one file ----

  datatype Plan = Skip | Conflict(dest: Path) | Install(dest: Path)

  /** Which branch `pull_single_file` takes. */
  function PlanPull(h: Hasher, c: Client, meta: FileMeta, timestamp: string): Plan {
    if meta.path in c.records then
      var record := c.records[meta.path];
      if record.serverVersion == meta.version then Skip
      else if record.serverVersion < meta.version && meta.path in c.fs && h(c.fs[meta.path]) != record.localHash
      then Conflict(ConflictPath(meta.path, timestamp))
      else Install(meta.path)
    else Install(meta.path)
  }

  /** A download as the client sees it; the stream may break before the end. */
  datatype Response =
    | Refused
    | Delivered(resumed: bool, stream: Bytes, whole: bool)

  function SizeAt(fs: map<Path, Bytes>, p: Path): nat { if p in fs then |fs[p]| else 0 }

  function ContentAt(fs: map<Path, Bytes>, p: Path): Bytes { if p in fs then fs[p] else [] }

  /** `download_to_file`: append to what is there, or start over. */
  function Download(fs: map<Path, Bytes>, dest: Path, resp: Response): map<Path, Bytes> {
    match resp
    case Refused => fs
    case Delivered(resumed, stream, _) => fs[dest := if resumed then ContentAt(fs, dest) + stream else stream]
  }

  /** Download to the `.part` file, check it against the listed hash, and rename it into place. */
  function Fetch(h: Hasher, fs: map<Path, Bytes>, dest: Path, hash: Hash, resp: Response): (map<Path, Bytes>, bool) {
    var part := PartOf(dest);
    var got := Download(fs, part, resp);
    if resp.Refused? || !resp.whole then (got, false)
    else if h(got[part]) != hash then (got - {part}, false)
    else ((got - {part})[dest := got[part]], true)
  }

  /** Carry out what was planned for a listed file, on the tree as it is by then. */
  function CarryOut(h: Hasher, c: Client, meta: FileMeta, plan: Plan, resp: Response): (Client, bool) {
    match plan
    case Skip => (c, true)
    case Conflict(dest) =>
      var (fs, ok) := Fetch(h, c.fs, dest, meta.contentHash, resp);
      (c.(fs := fs), ok)
    case Install(dest) =>
      var (fs, ok) := Fetch(h, c.fs, dest, meta.contentHash, resp);
      if !ok then (c.(fs := fs), false)
      else
        var record := SyncRecord(meta.path, meta.contentHash, meta.version, None);
        (c.(fs := fs, records := c.records[meta.path := record]), true)
  }

  /** `pull_single_file`, when nothing happens between its decision and its last write. */
  function PullFile(h: Hasher, c: Client, meta: FileMeta, resp: Response, timestamp: string): (Client, bool) {
    CarryOut(h, c, meta, PlanPull(h, c, meta, timestamp), resp)
  }

  /** The names a plan may write to. */
  function Scratch(plan: Plan): set<Path> {
    match plan
    case Skip => {}
    case Conflict(dest) => {dest, PartOf(dest)}
    case Install(dest) => {dest, PartOf(dest)}
  }

  predicate SameAt(fs: map<Path, Bytes>, fs': map<Path, Bytes>, q: Path) {
    (q in fs' <==> q in fs) && (q in fs ==> fs'[q] == fs[q])
  }

  /**
   * Only verified bytes are installed, whatever was in the `.part` file and whatever the server
   * sent: the file at the listed path is unchanged or has the listed hash; the record is unchanged
   * or is the listed hash and version, and then the file has that hash; no other name is touched.
   */
  lemma PullIsVerified(h: Hasher, c: Client, meta: FileMeta, resp: Response, timestamp: string)
    ensures var (c', ok) := PullFile(h, c, meta, resp, timestamp);
            && (forall q :: q !in Scratch(PlanPull(h, c, meta, timestamp)) ==> SameAt(c.fs, c'.fs, q))
            && (SameAt(c.fs, c'.fs, meta.path)
                || (meta.path in c'.fs && h(c'.fs[meta.path]) == meta.contentHash))
            && (c'.records == c.records
                || (c'.records == c.records[meta.path := SyncRecord(meta.path, meta.contentHash, meta.version, None)]
                    && meta.path in c'.fs && h(c'.fs[meta.path]) == meta.contentHash))
            && (ok && PlanPull(h, c, meta, timestamp).Conflict? ==>
                  var copy := ConflictPath(meta.path, timestamp);
                  copy in c'.fs && h(c'.fs[copy]) == meta.contentHash && c'.records == c.records)
  {
    PlanIsVerified(h, c, c, meta, resp, timestamp);
  }

  /** Nor does it matter what became of the tree since the plan was made. */
  lemma PlanIsVerified(h: Hasher, before: Client, c: Client, meta: FileMeta, resp: Response, timestamp: string)
    ensures var plan := PlanPull(h, before, meta, timestamp);
            var (c', ok) := CarryOut(h, c, meta, plan, resp);
            && (forall q :: q !in Scratch(plan) ==> SameAt(c.fs, c'.fs, q))
            && (ok && plan.Install? ==> meta.path in c'.fs && h(c'.fs[meta.path]) == meta.contentHash)
            && (!(ok && plan.Install?) ==> SameAt(c.fs, c'.fs, meta.path))
            && c'.records == (if ok && plan.Install?
                              then c.records[meta.path := SyncRecord(meta.path, meta.contentHash, meta.version, None)]
                              else c.records)
            && (ok && plan.Conflict? ==>
                  var copy := ConflictPath(meta.path, timestamp);
                  copy in c'.fs && h(c'.fs[copy]) == meta.contentHash)
  {
    ConflictPathIsNew(meta.path, timestamp);
  }

  /** What an unbroken connection delivers of `content` for a range starting at `start`. */
  function Serve(content: Bytes, start: nat): Response {
    if start == 0 then Delivered(false, content, true)
    else if start < |content| then Delivered(true, content[start..], true)
    else Refused
  }

  /**
   * Completing a download: it ends with exactly the content in place if and only if what was in
   * the `.part` file is nothing or a strict prefix of it.
   */
  lemma FetchCompletesIff(h: Hasher, fs: map<Path, Bytes>, dest: Path, content: Bytes)
    requires forall other :: h(other) == h(content) ==> other == content
    ensures var part := ContentAt(fs, PartOf(dest));
            var (fs', ok) := Fetch(h, fs, dest, h(content), Serve(content, |part|));
            && (ok <==> part == [] || part < content)
            && (ok ==> fs' == (fs - {PartOf(dest)})[dest := content])
  {
    var part := ContentAt(fs, PartOf(dest));
    if 0 < |part| < |content| {
      var got := part + content[|part|..];
      if part < content {
        assert got == content;
      } else {
        assert got[..|part|] == part;
        assert got != content;
      }
    }
  }

  /** One half of that needs nothing of the hash. */
  lemma FetchCompletes(h: Hasher, fs: map<Path, Bytes>, dest: Path, content: Bytes)
    requires var part := ContentAt(fs, PartOf(dest)); part == [] || part < content
    ensures Fetch(h, fs, dest, h(content), Serve(content, |ContentAt(fs, PartOf(dest))|))
            == ((fs - {PartOf(dest)})[dest := content], true)
  {
    var part := ContentAt(fs, PartOf(dest));
    if part != [] { assert part + content[|part|..] == content; }
    PutDrop(fs, PartOf(dest), content);
  }

  lemma PutDrop(fs: map<Path, Bytes>, p: Path, content: Bytes)
    ensures fs[p := content] - {p} == fs - {p}
  {
  }

  /** An answer that starts over makes up for any leftover. */
  lemma StartedOver(h: Hasher, fs: map<Path, Bytes>, dest: Path, content: Bytes)
    ensures Fetch(h, fs, dest, h(content), Delivered(false, content, true)) == ((fs - {PartOf(dest)})[dest := content], true)
  {
    PutDrop(fs, PartOf(dest), content);
  }

  /**
   * What a fetch that fails leaves: after a refusal all as it was; after a broken stream the bytes
   * that came, behind those it continued; after a wrong hash no part file. Nothing else changes.
   */
  lemma FailedFetchLeaves(h: Hasher, fs: map<Path, Bytes>, dest: Path, hash: Hash, resp: Response)
    requires !Fetch(h, fs, dest, hash, resp).1
    ensures var fs', part := Fetch(h, fs, dest, hash, resp).0, PartOf(dest);
            && fs' - {part} == fs - {part}
            && (resp.Refused? ==> SameAt(fs, fs', part))
            && (resp.Delivered? && resp.whole ==> part !in fs')
            && (resp.Delivered? && !resp.whole ==>
                  part in fs' && fs'[part] == if resp.resumed then ContentAt(fs, part) + resp.stream else resp.stream)
  {
  }

  /** A leftover at least as long as the file blocks every later attempt: nothing changes, for ever. */
  lemma LongLeftoverBlocks(h: Hasher, fs: map<Path, Bytes>, dest: Path, content: Bytes)
    requires 0 < |ContentAt(fs, PartOf(dest))| && |content| <= |ContentAt(fs, PartOf(dest))|
    ensures Fetch(h, fs, dest, h(content), Serve(content, |ContentAt(fs, PartOf(dest))|)) == (fs, false)
  {
  }

  // ---- what is decided ----

  /** The record is of this version. */
  predicate UpToDate(c: Client, meta: FileMeta) {
    meta.path in c.records && c.records[meta.path].serverVersion == meta.version
  }

  /** The record is behind, and the file is there with other content than the record's. */
  predicate BothChanged(h: Hasher, c: Client, meta: FileMeta) {
    && meta.path in c.records && c.records[meta.path].serverVersion < meta.version
    && meta.path in c.fs && h(c.fs[meta.path]) != c.records[meta.path].localHash
  }

  /**
   * All cases of record and file: nothing is done exactly if the record is of the listed version,
   * a copy is kept exactly if both sides changed, and else the file is installed; so in
   * particular a file that is missing locally, recorded or not.
   */
  lemma PlanIff(h: Hasher, c: Client, meta: FileMeta, timestamp: string)
    ensures var plan := PlanPull(h, c, meta, timestamp);
            && (plan == Skip <==> UpToDate(c, meta))
            && (plan == Conflict(ConflictPath(meta.path, timestamp)) <==> BothChanged(h, c, meta))
            && (plan == Install(meta.path) <==> !UpToDate(c, meta) && !BothChanged(h, c, meta))
            && (meta.path !in c.fs && !UpToDate(c, meta) ==> plan == Install(meta.path))
  {
  }

  /** The local file differs from what the record says, or there is no record. */
  predicate Edited(h: Hasher, c: Client, p: Path) {
    p in c.fs && (p in c.records ==> h(c.fs[p]) != c.records[p].localHash)
  }

  /**
   * When pull would install over an edited file: exactly when it has no record, or a record ahead
   * of the server.
   */
  lemma EditOverwrittenIff(h: Hasher, c: Client, meta: FileMeta, timestamp: string)
    requires Edited(h, c, meta.path)
    ensures PlanPull(h, c, meta, timestamp).Install? <==>
              meta.path in c.records ==> meta.version < c.records[meta.path].serverVersion
  {
  }
}
