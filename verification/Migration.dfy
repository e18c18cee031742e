/** Migration 1: rows keyed by path alone move under the default tenant. */
module Migration {
  import opened Prelude
  import opened Tables
  import opened ServerClass

  /** The test by which the reading loop skips a key. */
  predicate HasNul(key: string): (r: bool)
    ensures r <==> !NulFree(key)
  {
    '\0' in key
  }

  /** Rows from before tenants existed. */
  function OldRows(files: map<string, FileMeta>): map<string, FileMeta> {
    map key | key in files && !HasNul(key) :: files[key]
  }

  function Owned(meta: FileMeta, t: Tenant, user: string): FileMeta { meta.(tenant := t, user := user) }

  /** One turn of the writing loop: insert under the new key, remove by the row's path. */
  function MoveRow(files: map<string, FileMeta>, meta: FileMeta, t: Tenant, user: string): map<string, FileMeta> {
    files[MakeKey(t, meta.path) := Owned(meta, t, user)] - {meta.path}
  }

  function MoveRows(files: map<string, FileMeta>, metas: seq<FileMeta>, t: Tenant, user: string): map<string, FileMeta> {
    if metas == [] then files
    else MoveRow(MoveRows(files, metas[..|metas| - 1], t, user), metas[|metas| - 1], t, user)
  }

  /** What the migration is for: every old row under the default tenant, everything else as it was. */
  function Migrated(files: map<string, FileMeta>, t: Tenant, user: string): map<string, FileMeta> {
    MoveSome(files, OldRows(files).Keys, t, user)
  }

  /** The same for some of the old keys. */
  function MoveSome(files: map<string, FileMeta>, moved: set<string>, t: Tenant, user: string): map<string, FileMeta>
    requires moved <= files.Keys
  {
    (files - moved) + MovedRows(files, moved, t, user)
  }

  function NewKeys(moved: set<string>, t: Tenant): set<string> { set k | k in moved :: MakeKey(t, k) }

  /** The path of a key in the tenant's namespace. */
  function PathOf(t: Tenant, key: string): Path
    requires |t| < |key|
  {
    key[|t| + 1..]
  }

  lemma NewKeysOf(moved: set<string>, t: Tenant)
    ensures forall key :: key in NewKeys(moved, t) ==> HasNul(key) && |t| < |key| && PathOf(t, key) in moved && key == MakeKey(t, PathOf(t, key))
    ensures forall k :: MakeKey(t, k) in NewKeys(moved, t) <==> k in moved
    ensures forall k :: |t| < |MakeKey(t, k)| && PathOf(t, MakeKey(t, k)) == k && HasNul(MakeKey(t, k))
  {
    forall k ensures |t| < |MakeKey(t, k)| && PathOf(t, MakeKey(t, k)) == k && HasNul(MakeKey(t, k)) { NewKey(t, k); }
  }

  function MovedRows(files: map<string, FileMeta>, moved: set<string>, t: Tenant, user: string): map<string, FileMeta>
    requires moved <= files.Keys
  {
    NewKeysOf(moved, t);
    map key | key in NewKeys(moved, t) :: Owned(files[PathOf(t, key)], t, user)
  }

  lemma NewKey(t: Tenant, p: Path)
    ensures HasNul(MakeKey(t, p)) && |t| < |MakeKey(t, p)| && PathOf(t, MakeKey(t, p)) == p
  {
    assert MakeKey(t, p)[|t|] == '\0';
  }

  /** Each old key is the path of its own row. */
  predicate KeyedByPath(files: map<string, FileMeta>) {
    forall key :: key in files && NulFree(key) ==> files[key].path == key
  }

  /** No old row's new key is taken. */
  predicate NoneTaken(files: map<string, FileMeta>, t: Tenant) {
    forall key :: key in files && NulFree(key) ==> MakeKey(t, key) !in files
  }

  function Paths(metas: seq<FileMeta>): set<Path> { set k | 0 <= k < |metas| :: metas[k].path }

  /** Whatever order the rows were read in, the loop does what the migration is for. */
  lemma {:induction false} LoopMigrates(files: map<string, FileMeta>, keys: seq<string>, metas: seq<FileMeta>, t: Tenant, user: string)
    requires KeyedByPath(files) && |keys| == |metas| && NoDuplicates(keys)
    requires forall k :: 0 <= k < |keys| ==> keys[k] in OldRows(files) && metas[k] == files[keys[k]]
    ensures Elements(keys) <= files.Keys
    ensures MoveRows(files, metas, t, user) == MoveSome(files, Elements(keys), t, user)
  {
    if keys == [] {
      MovingNone(files, t, user);
    } else {
      var n := |keys| - 1;
      LoopMigrates(files, keys[..n], metas[..n], t, user);
      assert Elements(keys) == Elements(keys[..n]) + {keys[n]};
      assert keys[n] !in Elements(keys[..n]);
      MoveOneMore(files, Elements(keys[..n]), keys[n], t, user);
    }
  }

  /** Where each row of the result comes from. */
  lemma RowAfter(files: map<string, FileMeta>, moved: set<string>, t: Tenant, user: string, key: string)
    requires moved <= OldRows(files).Keys
    ensures key in NewKeys(moved, t) ==>
              HasNul(key) && |t| < |key| && PathOf(t, key) in moved && key == MakeKey(t, PathOf(t, key))
    ensures var after := MoveSome(files, moved, t, user);
            if key in NewKeys(moved, t) then key in after && after[key] == Owned(files[PathOf(t, key)], t, user)
            else (key in after <==> key in files && key !in moved) && (key in after ==> after[key] == files[key])
  {
    NewKeysOf(moved, t);
  }

  lemma MovingNone(files: map<string, FileMeta>, t: Tenant, user: string)
    ensures MoveSome(files, {}, t, user) == files
  {
    assert NewKeys({}, t) == {};
  }

  lemma NewKeysOneMore(moved: set<string>, key: string, t: Tenant)
    ensures NewKeys(moved + {key}, t) == NewKeys(moved, t) + {MakeKey(t, key)}
  {
  }

  lemma MoveOneMore(files: map<string, FileMeta>, moved: set<string>, key: string, t: Tenant, user: string)
    requires KeyedByPath(files) && moved <= OldRows(files).Keys && key in OldRows(files) && key !in moved
    ensures MoveRow(MoveSome(files, moved, t, user), files[key], t, user) == MoveSome(files, moved + {key}, t, user)
  {
    var before, after := MoveSome(files, moved, t, user), MoveSome(files, moved + {key}, t, user);
    var newKey := MakeKey(t, key);
    NewKey(t, key);
    forall k
      ensures k in after <==> k == newKey || (k in before && k != key)
      ensures k in after ==> after[k] == if k == newKey then Owned(files[key], t, user) else before[k]
    {
      RowOneMore(files, moved, key, t, user, k);
    }
    InsertRemove(before, after, newKey, Owned(files[key], t, user), key);
  }

  lemma RowOneMore(files: map<string, FileMeta>, moved: set<string>, key: string, t: Tenant, user: string, k: string)
    requires moved <= OldRows(files).Keys && key in OldRows(files) && key !in moved
    ensures var before, after := MoveSome(files, moved, t, user), MoveSome(files, moved + {key}, t, user);
            && (k in after <==> k == MakeKey(t, key) || (k in before && k != key))
            && (k in after ==> after[k] == if k == MakeKey(t, key) then Owned(files[key], t, user) else before[k])
  {
    RowAfter(files, moved, t, user, k);
    RowAfter(files, moved + {key}, t, user, k);
    NewKeysOneMore(moved, key, t);
    NewKey(t, key);
  }

  lemma InsertRemove<K, V>(before: map<K, V>, after: map<K, V>, added: K, v: V, removed: K)
    requires added != removed
    requires forall k :: k in after <==> k == added || (k in before && k != removed)
    requires forall k :: k in after ==> after[k] == if k == added then v else before[k]
    ensures after == before[added := v] - {removed}
  {
  }

  lemma InsertRemoveSize<K, V>(before: map<K, V>, added: K, v: V, removed: K)
    requires added != removed && removed in before
    ensures |before[added := v] - {removed}| == if added in before then |before| - 1 else |before|
  {
    var inserted := before[added := v];
    assert (inserted - {removed}).Keys == inserted.Keys - {removed};
    assert inserted.Keys == before.Keys + {added};
  }

  /**
   * Every row of a key without a NUL is now the default tenant's, under its own path, with only the
   * owner changed; every other row is untouched; there are no further rows, and none without a namespace.
   */
  ghost predicate MovedAll(files: map<string, FileMeta>, files': map<string, FileMeta>, t: Tenant, user: string) {
    && (forall key :: key in files && NulFree(key) ==>
          MakeKey(t, key) in files' && files'[MakeKey(t, key)] == files[key].(tenant := t, user := user))
    && (forall key :: key in files && !NulFree(key) ==> key in files' && files'[key] == files[key])
    && (forall key :: key in files' ==> !NulFree(key) && (key in files || exists from :: IsMoved(files, from, t, key)))
  }

  predicate IsMoved(files: map<string, FileMeta>, from: string, t: Tenant, to: string) {
    from in files && NulFree(from) && to == MakeKey(t, from)
  }

  /** So the default tenant sees its earlier rows and all the old ones, and everybody else what they saw. */
  lemma MeaningPreserved(files: map<string, FileMeta>, t: Tenant, user: string)
    requires KeyedByPath(files) && NoneTaken(files, t)
    ensures MovedAll(files, Migrated(files, t, user), t, user)
    ensures forall p :: MakeKey(t, p) in Migrated(files, t, user) <==> MakeKey(t, p) in files || (p in files && NulFree(p))
  {
    var files' := Migrated(files, t, user);
    var moved := OldRows(files).Keys;
    forall p
      ensures MakeKey(t, p) in files' <==> MakeKey(t, p) in files || p in moved
      ensures p in moved ==> files'[MakeKey(t, p)] == files[p].(tenant := t, user := user)
    {
      NewKeysOf(moved, t);
      NewKey(t, p);
      RowAfter(files, moved, t, user, MakeKey(t, p));
    }
    forall key
      ensures key in files && !NulFree(key) ==> key in files' && files'[key] == files[key]
      ensures key in files' ==> !NulFree(key) && (key in files || exists from :: IsMoved(files, from, t, key))
    {
      RowAfter(files, moved, t, user, key);
      if key in NewKeys(moved, t) { assert IsMoved(files, PathOf(t, key), t, key); }
    }
  }

  /** Running it again, after a stop before the version was raised or after completion, changes nothing. */
  lemma MigratingTwice(files: map<string, FileMeta>, t: Tenant, user: string)
    ensures Migrated(Migrated(files, t, user), t, user) == Migrated(files, t, user)
  {
    var once := Migrated(files, t, user);
    forall key | key in once ensures HasNul(key) { RowAfter(files, OldRows(files).Keys, t, user, key); }
    MovingNone(once, t, user);
  }

  predicate Taken(files: map<string, FileMeta>, moved: set<string>, t: Tenant) {
    exists k :: k in moved && MakeKey(t, k) in files
  }

  lemma TakenByOneMore(files: map<string, FileMeta>, moved: set<string>, key: string, t: Tenant)
    ensures Taken(files, moved + {key}, t) <==> Taken(files, moved, t) || MakeKey(t, key) in files
  {
  }

  /** Moving one more row replaces a row exactly when its new key was taken. */
  lemma MoveOneCounts(files: map<string, FileMeta>, moved: set<string>, key: string, t: Tenant, user: string)
    requires KeyedByPath(files) && moved <= OldRows(files).Keys && key in OldRows(files) && key !in moved
    ensures |MoveSome(files, moved + {key}, t, user)|
            == |MoveSome(files, moved, t, user)| - if MakeKey(t, key) in files then 1 else 0
  {
    var newKey := MakeKey(t, key);
    MoveOneMore(files, moved, key, t, user);
    NewKey(t, key);
    NewKeysOf(moved, t);
    RowAfter(files, moved, t, user, newKey);
    RowAfter(files, moved, t, user, key);
    InsertRemoveSize(MoveSome(files, moved, t, user), newKey, Owned(files[key], t, user), key);
  }

  /** Rows are lost exactly when a new key was taken. */
  lemma {:induction false} MoveCounts(files: map<string, FileMeta>, moved: set<string>, t: Tenant, user: string)
    requires KeyedByPath(files) && moved <= OldRows(files).Keys
    ensures |MoveSome(files, moved, t, user)| <= |files|
    ensures |MoveSome(files, moved, t, user)| == |files| <==> !Taken(files, moved, t)
    decreases |moved|
  {
    if moved == {} {
      MovingNone(files, t, user);
    } else {
      var key :| key in moved;
      var rest := moved - {key};
      assert moved == rest + {key};
      MoveCounts(files, rest, t, user);
      MoveOneCounts(files, rest, key, t, user);
      TakenByOneMore(files, rest, key, t);
    }
  }

  lemma RowCountKeptIff(files: map<string, FileMeta>, t: Tenant, user: string)
    requires KeyedByPath(files)
    ensures |Migrated(files, t, user)| == |files| <==> NoneTaken(files, t)
  {
    MoveCounts(files, OldRows(files).Keys, t, user);
    assert Taken(files, OldRows(files).Keys, t) <==> !NoneTaken(files, t);
  }

  /** Removing by path and not by key: an old key is left behind exactly when it is no old row's path. */
  lemma {:induction false} KeyLeftBehindIff(files: map<string, FileMeta>, metas: seq<FileMeta>, t: Tenant, user: string, key: string)
    requires !HasNul(key)
    ensures key in MoveRows(files, metas, t, user) <==> key in files && key !in Paths(metas)
  {
    if metas != [] {
      var n := |metas| - 1;
      KeyLeftBehindIff(files, metas[..n], t, user, key);
      NewKey(t, metas[n].path);
      assert Paths(metas) == Paths(metas[..n]) + {metas[n].path};
    }
  }

  lemma AnyOrderMigrates(files: map<string, FileMeta>, keys: seq<string>, metas: seq<FileMeta>, t: Tenant, user: string)
    requires KeyedByPath(files) && Enumerates(OldRows(files), keys, metas)
    ensures MoveRows(files, metas, t, user) == Migrated(files, t, user)
  {
    LoopMigrates(files, keys, metas, t, user);
  }

  lemma MoveRowsNext(files: map<string, FileMeta>, metas: seq<FileMeta>, k: nat, t: Tenant, user: string)
    requires k < |metas|
    ensures MoveRows(files, metas[..k + 1], t, user) == MoveRow(MoveRows(files, metas[..k], t, user), metas[k], t, user)
  {
    assert metas[..k + 1][..k] == metas[..k];
  }

  class MigrationDb {
    var files: map<string, FileMeta>
    var schemaVersion: Option<nat>

    constructor (files: map<string, FileMeta>)
      ensures this.files == files && schemaVersion == None
    {
      this.files, schemaVersion := files, None;
    }

    /** `meta::get` */
    function Version(): nat reads this { if schemaVersion.Some? then schemaVersion.value else 0 }

    /** `meta::inc` */
    method Inc()
      modifies this`schemaVersion
      ensures Version() == old(Version()) + 1
    {
      var meta := if schemaVersion.Some? then schemaVersion.value else 0;
      schemaVersion := Some(meta + 1);
    }

    method ReadOldRows() returns (metas: seq<FileMeta>, ghost keys: seq<string>)
      ensures Enumerates(OldRows(files), keys, metas)
      ensures HoldsRows(map key | key in files && NulFree(key) :: files[key], metas)
    {
      metas, keys := [], [];
      var rest := files.Keys;
      ghost var done: map<string, FileMeta> := map[];
      while rest != {}
        invariant rest <= files.Keys
        invariant done == map key | key in files && key !in rest && !HasNul(key) :: files[key]
        invariant Enumerates(done, keys, metas)
        decreases |rest|
      {
        var key :| key in rest;
        rest := rest - {key};
        if HasNul(key) { continue; }
        Enumerate(done, keys, metas, key, files[key]);
        metas, keys, done := metas + [files[key]], keys + [key], done[key := files[key]];
      }
      assert done == OldRows(files);
      EnumeratesHoldsRows(done, keys, metas);
      assert done == map key | key in files && NulFree(key) :: files[key];
    }

    /** The write transaction of `migrate`. */
    method MoveAll(t: Tenant, user: string)
      modifies this`files
      ensures old(KeyedByPath(files)) ==> files == Migrated(old(files), t, user)
      ensures exists keys: seq<string>, metas: seq<FileMeta> ::
                Enumerates(OldRows(old(files)), keys, metas) && files == MoveRows(old(files), metas, t, user)
    {
      var metas, keys := ReadOldRows();
      for k := 0 to |metas|
        invariant files == MoveRows(old(files), metas[..k], t, user)
      {
        MoveRowsNext(old(files), metas, k, t, user);
        var meta := metas[k];
        var newKey := MakeKey(t, meta.path);
        files := files[newKey := meta.(tenant := t, user := user)];
        files := files - {meta.path};
      }
      assert metas[..|metas|] == metas;
      if old(KeyedByPath(files)) {
        AnyOrderMigrates(old(files), keys, metas, t, user);
      }
    }

    /** `migrate`; `stopped` is a process that ends between the commit and the version increment. */
    method Migrate(t: Tenant, user: string, stopped: bool)
      modifies this
      ensures old(KeyedByPath(files)) ==>
                files == if old(Version()) >= 1 then old(files) else Migrated(old(files), t, user)
      ensures old(Version()) >= 1 ==> files == old(files)
      ensures old(Version()) == 0 && old(KeyedByPath(files)) && old(NoneTaken(files, t)) ==> MovedAll(old(files), files, t, user)
      ensures Version() == if old(Version()) >= 1 then old(Version()) else if stopped then 0 else 1
    {
      if Version() >= 1 { return; }
      if KeyedByPath(files) && NoneTaken(files, t) { MeaningPreserved(files, t, user); }
      MoveAll(t, user);
      if stopped { return; }
      Inc();
    }

    /** However often it is stopped first, a migration that completes leaves what one run would have. */
    method MigrateUntilDone(t: Tenant, user: string, stops: nat)
      requires KeyedByPath(files) && Version() == 0
      modifies this
      ensures files == Migrated(old(files), t, user) && Version() == 1
      ensures old(NoneTaken(files, t)) ==> MovedAll(old(files), files, t, user)
    {
      if NoneTaken(files, t) { MeaningPreserved(files, t, user); }
      MigratingTwice(files, t, user);
      for k := 0 to stops
        invariant Version() == 0 && KeyedByPath(files)
        invariant files == old(files) || files == Migrated(old(files), t, user)
      {
        MigratedIsKeyed(files, t, user);
        Migrate(t, user, true);
      }
      Migrate(t, user, false);
    }
  }

  lemma MigratedIsKeyed(files: map<string, FileMeta>, t: Tenant, user: string)
    ensures KeyedByPath(Migrated(files, t, user))
  {
    NewKeysOf(OldRows(files).Keys, t);
  }
}
