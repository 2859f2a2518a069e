/** Backup archives: the database, the kernel configuration if there is one, and a manifest with their
    checksums. Hashing and the JSON form of the manifest are parameters. */
module Backup {
  import opened Wrappers

  const FORMAT_VERSION := 1
  const DATABASE := "boxd.db"
  const CONFIG := "sing-box.json"
  const MANIFEST := "manifest.json"
  const MAX_ENTRY_BYTES := 536870912

  datatype Manifest = Manifest(formatVersion: int, appVersion: string, createdAt: int, checksums: map<string, string>)

  /** An entry of the tar file. */
  datatype TarEntry = TarEntry(name: string, regular: bool, data: Bytes)

  type Entries = map<string, Bytes>

  datatype Error = InvalidEntry | TooLarge | NoManifest | BadManifest | BadVersion | Checksum | NoDatabase | Storage

  function Checksums(entries: Entries, sha: Bytes -> string): map<string, string> {
    map name | name in entries :: sha(entries[name])
  }

  method BackupChecksums(entries: Entries, sha: Bytes -> string) returns (checksums: map<string, string>)
    ensures checksums == Checksums(entries, sha)
  {
    checksums := map[];
    var names := entries.Keys;
    while names != {}
      invariant names <= entries.Keys
      invariant checksums == map name | name in entries && name !in names :: sha(entries[name])
      decreases |names|
    {
      var name :| name in names;
      names := names - {name};
      checksums := checksums[name := sha(entries[name])];
    }
  }

  /** Every listed entry is there with its checksum. Entries that are not listed are not checked. */
  predicate ChecksumsMatch(entries: Entries, manifest: Manifest, sha: Bytes -> string) {
    forall name | name in manifest.checksums :: name in entries && sha(entries[name]) == manifest.checksums[name]
  }

  method VerifyBackupChecksums(entries: Entries, manifest: Manifest, sha: Bytes -> string) returns (ok: bool)
    ensures ok <==> ChecksumsMatch(entries, manifest, sha)
  {
    var names := manifest.checksums.Keys;
    while names != {}
      invariant names <= manifest.checksums.Keys
      invariant forall name | name in manifest.checksums && name !in names ::
                  name in entries && sha(entries[name]) == manifest.checksums[name]
      decreases |names|
    {
      var name :| name in names;
      names := names - {name};
      if name !in entries {
        return false;
      }
      if sha(entries[name]) != manifest.checksums[name] {
        return false;
      }
    }
    return true;
  }

  function Contents(database: Bytes, config: Option<Bytes>): Entries {
    map[DATABASE := database] + if config.Some? then map[CONFIG := config.value] else map[]
  }

  function ManifestOf(database: Bytes, config: Option<Bytes>, version: string, now: int, sha: Bytes -> string)
    : Manifest
  {
    Manifest(FORMAT_VERSION, version, now, Checksums(Contents(database, config), sha))
  }

  /** The archive that a backup writes: database, configuration if there is one, manifest. */
  function Archive(database: Bytes, config: Option<Bytes>, manifest: Bytes): seq<TarEntry> {
    [TarEntry(DATABASE, true, database)]
    + (if config.Some? then [TarEntry(CONFIG, true, config.value)] else [])
    + [TarEntry(MANIFEST, true, manifest)]
  }

  /** `CreateBackup`; a configuration file that exists and cannot be read is an error. */
  method CreateBackup(database: Bytes, config: Option<Bytes>, version: string, now: int, sha: Bytes -> string,
                      encode: Manifest -> Bytes, snapshotFails: bool, readFails: bool, writeFails: bool)
    returns (r: Result<seq<TarEntry>, Error>)
    ensures r.Ok? <==> !snapshotFails && !readFails && !writeFails
    ensures r.Ok? ==> r.value == Archive(database, config, encode(ManifestOf(database, config, version, now, sha)))
  {
    if snapshotFails {
      return Err(Storage);
    }
    var entries: Entries := map[DATABASE := database];
    if readFails {
      return Err(Storage);
    }
    if config.Some? {
      entries := entries[CONFIG := config.value];
    }
    assert entries == Contents(database, config);
    var checksums := BackupChecksums(entries, sha);
    var manifest := Manifest(FORMAT_VERSION, version, now, checksums);
    entries := entries[MANIFEST := encode(manifest)];
    if writeFails {
      return Err(Storage);
    }
    var archive: seq<TarEntry> := [TarEntry(DATABASE, true, entries[DATABASE])];
    if CONFIG in entries {
      archive := archive + [TarEntry(CONFIG, true, entries[CONFIG])];
    }
    archive := archive + [TarEntry(MANIFEST, true, entries[MANIFEST])];
    return Ok(archive);
  }

  predicate Acceptable(e: TarEntry) {
    (e.name == DATABASE || e.name == CONFIG || e.name == MANIFEST) && e.regular && |e.data| <= MAX_ENTRY_BYTES
  }

  /** The entries by name; a later entry replaces an earlier one. */
  function Collected(archive: seq<TarEntry>): Entries {
    if archive == [] then map[]
    else
      var last := archive[|archive| - 1];
      Collected(archive[..|archive| - 1])[last.name := last.data]
  }

  /** `readValidatedTar` */
  method ReadValidatedTar(archive: seq<TarEntry>) returns (r: Result<Entries, Error>)
    ensures r.Ok? <==>
              (forall e | e in archive :: Acceptable(e))
              && MANIFEST in Collected(archive) && Collected(archive)[MANIFEST] != []
    ensures r.Ok? ==> r.value == Collected(archive)
  {
    var entries: Entries := map[];
    for i := 0 to |archive|
      invariant forall e | e in archive[..i] :: Acceptable(e)
      invariant entries == Collected(archive[..i])
    {
      assert archive[..i + 1][..i] == archive[..i];
      if !Acceptable(archive[i]) {
        assert archive[i] in archive;
        return Err(InvalidEntry);
      }
      entries := entries[archive[i].name := archive[i].data];
    }
    assert archive[..|archive|] == archive;
    if MANIFEST !in entries || entries[MANIFEST] == [] {
      return Err(NoManifest);
    }
    return Ok(entries);
  }

  /** What an archive restores, if it is well-formed: the database, and the configuration if archived. */
  ghost predicate Restores(archive: seq<TarEntry>, sha: Bytes -> string, decode: Bytes -> Option<Manifest>,
                           database: Bytes, config: Option<Bytes>)
  {
    var entries := Collected(archive);
    && (forall e | e in archive :: Acceptable(e))
    && MANIFEST in entries && entries[MANIFEST] != []
    && decode(entries[MANIFEST]).Some?
    && decode(entries[MANIFEST]).value.formatVersion == FORMAT_VERSION
    && ChecksumsMatch(entries, decode(entries[MANIFEST]).value, sha)
    && DATABASE in entries && entries[DATABASE] == database
    && config == if CONFIG in entries then Some(entries[CONFIG]) else None
  }

  ghost predicate Restorable(archive: seq<TarEntry>, sha: Bytes -> string, decode: Bytes -> Option<Manifest>) {
    exists database, config :: Restores(archive, sha, decode, database, config)
  }

  lemma CollectedAppend(archive: seq<TarEntry>, e: TarEntry)
    ensures Collected(archive + [e]) == Collected(archive)[e.name := e.data]
  {
    assert (archive + [e])[..|archive|] == archive;
  }

  lemma ArchiveCollected(database: Bytes, config: Option<Bytes>, manifest: Bytes)
    ensures Collected(Archive(database, config, manifest)) == Contents(database, config)[MANIFEST := manifest]
  {
    var first, last := [TarEntry(DATABASE, true, database)], TarEntry(MANIFEST, true, manifest);
    CollectedAppend([], first[0]);
    assert [] + [first[0]] == first;
    if config.Some? {
      CollectedAppend(first, TarEntry(CONFIG, true, config.value));
      CollectedAppend(first + [TarEntry(CONFIG, true, config.value)], last);
    } else {
      CollectedAppend(first, last);
      assert Archive(database, config, manifest) == first + [last];
    }
  }

  lemma ArchiveAcceptable(database: Bytes, config: Option<Bytes>, manifest: Bytes)
    ensures (forall e | e in Archive(database, config, manifest) :: Acceptable(e)) <==>
            |database| <= MAX_ENTRY_BYTES && |manifest| <= MAX_ENTRY_BYTES
            && (config.Some? ==> |config.value| <= MAX_ENTRY_BYTES)
  {
    var archive := Archive(database, config, manifest);
    assert archive[0] in archive && archive[|archive| - 1] in archive;
    if config.Some? {
      assert archive[1] in archive;
    }
  }

  /** The round trip: a created backup restores exactly the database and the configuration it was made
      from, if and only if no entry is larger than a restore accepts. Creating does not check this. */
  lemma {:induction false} RoundTripIff(database: Bytes, config: Option<Bytes>, version: string, now: int,
                                        sha: Bytes -> string, encode: Manifest -> Bytes,
                                        decode: Bytes -> Option<Manifest>)
    requires forall m: Manifest :: decode(encode(m)) == Some(m) && encode(m) != []
    ensures var manifest := encode(ManifestOf(database, config, version, now, sha));
            var archive := Archive(database, config, manifest);
            var fits := |database| <= MAX_ENTRY_BYTES && |manifest| <= MAX_ENTRY_BYTES
                        && (config.Some? ==> |config.value| <= MAX_ENTRY_BYTES);
            (Restores(archive, sha, decode, database, config) <==> fits)
            && (Restorable(archive, sha, decode) <==> fits)
  {
    var m := ManifestOf(database, config, version, now, sha);
    var archive := Archive(database, config, encode(m));
    ArchiveCollected(database, config, encode(m));
    ArchiveAcceptable(database, config, encode(m));
    var entries := Collected(archive);
    assert decode(entries[MANIFEST]) == Some(m);
    assert ChecksumsMatch(entries, m, sha);
  }

  /** One byte over the limit is enough: the backup is created, and no restore accepts it. */
  lemma OversizedBackupIsLost(version: string, now: int, sha: Bytes -> string, encode: Manifest -> Bytes,
                              decode: Bytes -> Option<Manifest>)
    requires forall m: Manifest :: decode(encode(m)) == Some(m) && encode(m) != []
    ensures var database: Bytes := seq(MAX_ENTRY_BYTES + 1, _ => 0);
            !Restorable(Archive(database, None, encode(ManifestOf(database, None, version, now, sha))), sha, decode)
  {
    RoundTripIff(seq(MAX_ENTRY_BYTES + 1, _ => 0), None, version, now, sha, encode, decode);
  }
}

/** Restoring into the two files of the data directory. */
module Restore {
  import opened Wrappers
  import opened Backup

  /** Which steps of a restore fail. */
  datatype Faults = Faults(
    snapshotInvalid: bool, mkdir: bool,
    readDatabase: bool, preserveDatabase: bool, replaceDatabase: bool,
    readConfig: bool, preserveConfig: bool, replaceConfig: bool, rollback: bool)

  /** The archive is well-formed and the database is replaced; keeping a copy can only fail if there is a
      database to copy. */
  ghost predicate ReplacesDatabase(archive: seq<TarEntry>, sha: Bytes -> string, decode: Bytes -> Option<Manifest>,
                                   database: Option<Bytes>, f: Faults)
  {
    && Restorable(archive, sha, decode) && !f.snapshotInvalid && !f.mkdir && !f.readDatabase
    && !(database.Some? && f.preserveDatabase) && !f.replaceDatabase
  }

  /** There is an archived configuration, and one of its steps fails. */
  predicate ConfigFails(archive: seq<TarEntry>, config: Option<Bytes>, f: Faults) {
    CONFIG in Collected(archive) && (f.readConfig || (config.Some? && f.preserveConfig) || f.replaceConfig)
  }

  class DataFiles {
    var database: Option<Bytes>
    var config: Option<Bytes>

    constructor (database: Option<Bytes>, config: Option<Bytes>)
      ensures this.database == database && this.config == config
    {
      this.database, this.config := database, config;
    }

    /** `rollbackFile`: the previous content, or no file. */
    method RollbackDatabase(previous: Option<Bytes>, fails: bool)
      modifies this`database
      ensures database == if fails then old(database) else previous
    {
      if !fails {
        database := previous;
      }
    }

    method RestoreBackup(archive: seq<TarEntry>, sha: Bytes -> string, decode: Bytes -> Option<Manifest>,
                         faults: Faults)
      returns (failure: Option<Error>)
      modifies this
      // On success both files are the archived ones; a configuration that was not archived is not touched.
      ensures failure == None ==>
                exists db, cfg :: Restores(archive, sha, decode, db, cfg)
                  && database == Some(db) && config == (if cfg.Some? then cfg else old(config))
      // It succeeds exactly on a well-formed archive whose necessary steps all work.
      ensures failure == None <==>
                ReplacesDatabase(archive, sha, decode, old(database), faults)
                && !ConfigFails(archive, old(config), faults)
      // All or nothing, unless the rollback itself fails.
      ensures failure.Some? && !faults.rollback ==> database == old(database) && config == old(config)
      // A failure never changes the configuration. It leaves the database changed in one case: the archived one
      // is there, the configuration failed, and so did the rollback.
      ensures failure.Some? ==> config == old(config)
      ensures failure.Some? && !ReplacesDatabase(archive, sha, decode, old(database), faults) ==>
                database == old(database)
      ensures ReplacesDatabase(archive, sha, decode, old(database), faults)
              && ConfigFails(archive, old(config), faults) && faults.rollback ==>
                DATABASE in Collected(archive) && database == Some(Collected(archive)[DATABASE])
    {
      var loaded := ReadValidatedTar(archive);
      if loaded.Err? {
        return Some(loaded.error);
      }
      var entries := loaded.value;
      var decoded := decode(entries[MANIFEST]);
      if decoded.None? {
        return Some(BadManifest);
      }
      if decoded.value.formatVersion != FORMAT_VERSION {
        return Some(BadVersion);
      }
      var verified := VerifyBackupChecksums(entries, decoded.value, sha);
      if !verified {
        return Some(Checksum);
      }
      if DATABASE !in entries {
        return Some(NoDatabase);
      }
      var archived := entries[DATABASE];
      ghost var archivedConfig := if CONFIG in entries then Some(entries[CONFIG]) else None;
      assert Restores(archive, sha, decode, archived, archivedConfig);
      if faults.snapshotInvalid || faults.mkdir || faults.readDatabase {
        return Some(Storage);
      }
      var previousDatabase := database;
      if previousDatabase.Some? && faults.preserveDatabase {
        return Some(Storage);
      }
      if faults.replaceDatabase {
        return Some(Storage);
      }
      database := Some(archived);
      if CONFIG in entries {
        if faults.readConfig {
          RollbackDatabase(previousDatabase, faults.rollback);
          return Some(Storage);
        }
        if config.Some? && faults.preserveConfig {
          RollbackDatabase(previousDatabase, faults.rollback);
          return Some(Storage);
        }
        if faults.replaceConfig {
          RollbackDatabase(previousDatabase, faults.rollback);
          return Some(Storage);
        }
        config := Some(entries[CONFIG]);
      }
      return None;
    }
  }

  /** Backing up, losing or changing both files, and restoring brings back the bytes of the database, and
      those of the configuration if there was one. */
  method BackupAndRestore(source: DataFiles, target: DataFiles, version: string, now: int, sha: Bytes -> string,
                          encode: Manifest -> Bytes, decode: Bytes -> Option<Manifest>)
    returns (failure: Option<Error>)
    requires source.database.Some? && source != target
    requires forall m: Manifest :: decode(encode(m)) == Some(m) && encode(m) != []
    modifies target
    ensures failure == None <==>
              var manifest := encode(ManifestOf(source.database.value, source.config, version, now, sha));
              |source.database.value| <= MAX_ENTRY_BYTES && |manifest| <= MAX_ENTRY_BYTES
              && (source.config.Some? ==> |source.config.value| <= MAX_ENTRY_BYTES)
    ensures failure == None ==> target.database == source.database
    ensures failure == None && source.config.Some? ==> target.config == source.config
    ensures failure == None && source.config.None? ==> target.config == old(target.config)
    ensures failure.Some? ==> target.database == old(target.database) && target.config == old(target.config)
  {
    var created := CreateBackup(source.database.value, source.config, version, now, sha, encode, false, false, false);
    RoundTripIff(source.database.value, source.config, version, now, sha, encode, decode);
    failure := target.RestoreBackup(created.value, sha, decode,
                                    Faults(false, false, false, false, false, false, false, false, false));
  }
}
