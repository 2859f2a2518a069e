/** What backups consist of and which archives are refused, told by names, sizes and bytes. */
module BackupValues {
  import opened Wrappers
  import opened Backup

  /** The entries of an archive: the database, the configuration if there is one, and the manifest. */
  lemma ArchiveIs(database: Bytes, config: Option<Bytes>, manifest: Bytes)
    ensures Archive(database, config, manifest) ==
            if config.None? then
              [TarEntry("boxd.db", true, database), TarEntry("manifest.json", true, manifest)]
            else
              [TarEntry("boxd.db", true, database), TarEntry("sing-box.json", true, config.value),
               TarEntry("manifest.json", true, manifest)]
  {}

  /** The manifest has format version 1 and lists the checksum of every other entry. */
  lemma ManifestIs(database: Bytes, config: Option<Bytes>, version: string, now: int, sha: Bytes -> string)
    ensures var m := ManifestOf(database, config, version, now, sha);
            m.formatVersion == 1 && m.appVersion == version && m.createdAt == now
            && m.checksums == if config.None? then map["boxd.db" := sha(database)]
                              else map["boxd.db" := sha(database), "sing-box.json" := sha(config.value)]
  {}

  /** An entry of another name, one that is no regular file, or one of more than 512 MiB makes a restore refuse the
      archive. */
  lemma {:induction false} RefusesOthers(archive: seq<TarEntry>, e: TarEntry, sha: Bytes -> string,
                                         decode: Bytes -> Option<Manifest>)
    requires e in archive
    requires e.name !in {"boxd.db", "sing-box.json", "manifest.json"} || !e.regular || |e.data| > 512 * 1024 * 1024
    ensures !Restorable(archive, sha, decode)
  {
    assert !Acceptable(e);
  }

  lemma {:induction false} NamedIn(archive: seq<TarEntry>, name: string)
    ensures name in Collected(archive) <==> exists e :: e in archive && e.name == name
  {
    if archive != [] {
      var init, last := archive[..|archive| - 1], archive[|archive| - 1];
      NamedIn(init, name);
      assert archive == init + [last];
      if e :| e in init && e.name == name {
        assert e in archive;
      }
    }
  }

  /** Without a database or a manifest nothing is restored. */
  lemma {:induction false} NeedsBoth(archive: seq<TarEntry>, sha: Bytes -> string, decode: Bytes -> Option<Manifest>)
    requires (forall e | e in archive :: e.name != "boxd.db") || (forall e | e in archive :: e.name != "manifest.json")
    ensures !Restorable(archive, sha, decode)
  {
    NamedIn(archive, "boxd.db");
    NamedIn(archive, "manifest.json");
  }

  /** A backup whose database or configuration was changed afterwards is refused, unless the hash does not see it. */
  lemma {:induction false} TamperedIsRefused(database: Bytes, config: Option<Bytes>, version: string, now: int,
                                             sha: Bytes -> string, encode: Manifest -> Bytes,
                                             decode: Bytes -> Option<Manifest>, database': Bytes,
                                             config': Option<Bytes>)
    requires forall m: Manifest :: decode(encode(m)) == Some(m)
    requires sha(database') != sha(database)
             || (config.Some? && (config'.None? || sha(config'.value) != sha(config.value)))
    ensures var manifest := encode(ManifestOf(database, config, version, now, sha));
            !Restorable(Archive(database', config', manifest), sha, decode)
  {
    var m := ManifestOf(database, config, version, now, sha);
    var archive := Archive(database', config', encode(m));
    ArchiveCollected(database', config', encode(m));
    ManifestIs(database, config, version, now, sha);
    assert decode(Collected(archive)["manifest.json"]) == Some(m);
    assert "boxd.db" in m.checksums && (config.Some? ==> "sing-box.json" in m.checksums);
    assert !ChecksumsMatch(Collected(archive), m, sha);
  }

  /** An archive with a manifest of another format version is refused. */
  lemma {:induction false} OtherVersionIsRefused(database: Bytes, config: Option<Bytes>, m: Manifest,
                                                 sha: Bytes -> string, encode: Manifest -> Bytes,
                                                 decode: Bytes -> Option<Manifest>)
    requires decode(encode(m)) == Some(m) && m.formatVersion != 1
    ensures !Restorable(Archive(database, config, encode(m)), sha, decode)
  {
    ArchiveCollected(database, config, encode(m));
  }
}
