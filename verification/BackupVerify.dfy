/** Verifying a backup directory against its own manifest
    (tools/local-stack/local_stack.py:800-825, 1304-1380). */
module BackupVerify {
  import opened Basics
  import opened Fingerprint
  import opened CatalogDigest
  import opened BackupManifest

  /** A `schema_version` row: no table, no usable value, or a value. */
  datatype VersionRow = NoTable | Unusable | Version(text: string)

  /** Everything the tool can read from an open database. */
  datatype Content = Content(sections: Sections, relations: seq<Relation>, local: VersionRow, assurance: VersionRow,
      engine: Engine)

  /** The libraries the tool calls. `logical` is what DuckDB shows for a database file
      beside an optional write-ahead log, None when it cannot be opened. */
  datatype Platform = Platform(
    digest: Digester, hex: Bytes -> string, formats: Formats,
    decode: Bytes -> Option<Manifest>, encode: Manifest -> Bytes,
    logical: (Bytes, Option<Bytes>) -> Option<Content>)

  function Sha256(p: Platform, b: Bytes): string {
    p.hex(p.digest(b))
  }

  /** What the directory shows at one moment. */
  datatype BackupView = BackupView(exact: bool, manifest: Bytes, database: Bytes, sidecars: bool)

  datatype Verified = Verified(manifest: Manifest, manifestSha256: string)

  // ---- metadata ----

  predicate Readable(c: Content) {
    && c.local.Version? && Bounded(c.local.text, 32)
    && !c.assurance.Unusable? && (c.assurance.Version? ==> Bounded(c.assurance.text, 32))
    && EngineFits(c.engine)
  }

  /** `_database_metadata`; None when it raises. */
  function MetadataOf(p: Platform, c: Content): Option<Metadata> {
    var tables := BaseTables(c.relations);
    if !Summarizable(c.relations) || !Readable(c) || !Digestible(c.sections, tables) then None
    else
      var digest := LogicalDigest(p.digest, c.sections, tables);
      if digest.None? then None
      else
        var assurance := if c.assurance.Version? then Some(c.assurance.text) else None;
        Some(Metadata(SummaryOf(c.relations), p.hex(digest.value), BackupManifest.Versions(c.local.text, assurance),
            c.engine))
  }

  function OpenMetadata(p: Platform, database: Bytes, wal: Option<Bytes>): Option<Metadata> {
    var content := p.logical(database, wal);
    if content.None? then None else MetadataOf(p, content.value)
  }

  predicate Describes(m: Manifest, meta: Metadata) {
    && meta.summary.schemaCount == m.catalog.schemaCount && meta.summary.tableCount == m.catalog.tableCount
    && meta.summary.viewCount == m.catalog.viewCount && meta.summary.tables == m.catalog.tables
    && meta.summary.rowCount == m.catalog.rowCount && meta.versions == m.versions && meta.engine == m.engine
    && meta.logicalSha256 == m.catalog.logicalSha256
  }

  predicate HasBytes(p: Platform, m: Manifest, database: Bytes) {
    |database| == m.database.bytes && Sha256(p, database) == m.database.sha256
  }

  // ---- `_load_and_verify_backup` ----

  function LoadAndVerify(p: Platform, v: BackupView): Result<Verified, Code> {
    if !v.exact then Raise(BackupInvalid)
    else if |v.manifest| > MAX_MANIFEST_BYTES then Raise(BackupTooLarge)
    else if v.manifest == [] then Raise(BackupInvalid)
    else
      var decoded := p.decode(v.manifest);
      if decoded.None? then Raise(BackupInvalid)
      else
        var m := decoded.value;
        if !HeadValid(p.formats, m) then Raise(BackupInvalid)
        else if !CatalogWithinLimits(m.catalog) then Raise(BackupTooLarge)
        else if !TablesValid(m.catalog) then Raise(BackupInvalid)
        else if p.encode(m) != v.manifest then Raise(BackupInvalid)
        else if |v.database| > MAX_DATABASE_BYTES then Raise(BackupTooLarge)
        else if !HasBytes(p, m, v.database) then Raise(BackupInvalid)
        else if v.sidecars then Raise(BackupInvalid)
        else
          var meta := OpenMetadata(p, v.database, None);
          if meta.None? || !Describes(m, meta.value) then Raise(BackupInvalid)
          else Ok(Verified(m, Sha256(p, v.manifest)))
  }

  // ---- the same, step by step ----

  method DatabaseMetadata(p: Platform, c: Content) returns (meta: Option<Metadata>)
    ensures meta == MetadataOf(p, c)
  {
    hide Summarizable, Digestible, LogicalDigest, SummaryOf, BaseTables;
    var summary := CatalogSummary(c.relations);
    if summary.Raise? {
      return None;
    }
    if !c.local.Version? || |c.local.text| < 1 || |c.local.text| > 32 {
      return None;
    }
    var assurance: Option<string> := None;
    match c.assurance {
      case NoTable =>
      case Unusable => return None;
      case Version(text) =>
        if |text| < 1 || |text| > 32 {
          return None;
        }
        assurance := Some(text);
    }
    var e := c.engine;
    if |e.library| < 1 || |e.library| > 64 || |e.storage| < 1 || |e.storage| > 64 {
      return None;
    }
    var digest := LogicalCatalogSha256(p.digest, c.sections, BaseTables(c.relations));
    if digest.Raise? {
      return None;
    }
    return Some(Metadata(summary.value, p.hex(digest.value), BackupManifest.Versions(c.local.text, assurance), e));
  }

  method ReadMetadata(p: Platform, database: Bytes, wal: Option<Bytes>) returns (meta: Option<Metadata>)
    ensures meta == OpenMetadata(p, database, wal)
  {
    hide MetadataOf;
    var content := p.logical(database, wal);
    if content.None? {
      return None;
    }
    meta := DatabaseMetadata(p, content.value);
  }

  method CompareMetadata(m: Manifest, actual: Metadata) returns (same: bool)
    ensures same <==> Describes(m, actual)
  {
    if actual.summary.schemaCount != m.catalog.schemaCount || actual.summary.tableCount != m.catalog.tableCount {
      return false;
    }
    if actual.summary.viewCount != m.catalog.viewCount || actual.summary.tables != m.catalog.tables {
      return false;
    }
    if actual.summary.rowCount != m.catalog.rowCount || actual.versions != m.versions || actual.engine != m.engine {
      return false;
    }
    return actual.logicalSha256 == m.catalog.logicalSha256;
  }

  method LoadBackup(p: Platform, v: BackupView) returns (r: Result<Verified, Code>)
    ensures r == LoadAndVerify(p, v)
  {
    hide HeadValid, CatalogWithinLimits, TablesValid, OpenMetadata, Describes;
    if !v.exact {
      return Raise(BackupInvalid);
    }
    if |v.manifest| > MAX_MANIFEST_BYTES {
      return Raise(BackupTooLarge);
    }
    if v.manifest == [] {
      return Raise(BackupInvalid);
    }
    var decoded := p.decode(v.manifest);
    if decoded.None? {
      return Raise(BackupInvalid);
    }
    var manifest := ValidateManifest(p.formats, decoded.value);
    if manifest.Raise? {
      return Raise(manifest.error);
    }
    var m := manifest.value;
    if v.manifest != p.encode(m) {
      return Raise(BackupInvalid);
    }
    if |v.database| > MAX_DATABASE_BYTES {
      return Raise(BackupTooLarge);
    }
    if |v.database| != m.database.bytes || p.hex(p.digest(v.database)) != m.database.sha256 || v.sidecars {
      return Raise(BackupInvalid);
    }
    var actual := ReadMetadata(p, v.database, None);
    if actual.None? {
      return Raise(BackupInvalid);
    }
    var same := CompareMetadata(m, actual.value);
    if !same {
      return Raise(BackupInvalid);
    }
    return Ok(Verified(m, p.hex(p.digest(v.manifest))));
  }

  // ---- what verification means ----

  /** What a directory shows when it is a backup with the manifest `m`: two files and no
      other, the manifest in canonical form and acceptable, the database as long and with
      the hash it says, and holding what it says. */
  ghost predicate Genuine(p: Platform, v: BackupView, m: Manifest) {
    && v.exact && !v.sidecars
    && 1 <= |v.manifest| <= 16_384 && p.decode(v.manifest) == Some(m) && p.encode(m) == v.manifest
    && Accepted(p.formats, m)
    && |v.database| == m.database.bytes <= 134_217_728 && p.hex(p.digest(v.database)) == m.database.sha256
    && OpenMetadata(p, v.database, None).Some? && Describes(m, OpenMetadata(p, v.database, None).value)
  }

  /** Verification finds exactly that. */
  lemma VerifiesIff(p: Platform, v: BackupView, m: Manifest)
    ensures Genuine(p, v, m) <==> LoadAndVerify(p, v) == Ok(Verified(m, p.hex(p.digest(v.manifest))))
    ensures LoadAndVerify(p, v).Ok? ==>
              LoadAndVerify(p, v) == Ok(Verified(LoadAndVerify(p, v).value.manifest, p.hex(p.digest(v.manifest))))
  {
    hide HeadValid, CatalogWithinLimits, TablesValid, OpenMetadata, Describes;
  }

  /** The metadata that is read is that of the content, each version in its place. */
  lemma MetadataSpelled(p: Platform, c: Content)
    ensures MetadataOf(p, c).Some? ==>
              var meta, tables := MetadataOf(p, c).value, BaseTables(c.relations);
              && c.local == Version(meta.versions.local) && 1 <= |meta.versions.local| <= 32
              && (meta.versions.assurance.None? ==> c.assurance == NoTable)
              && (meta.versions.assurance.Some? ==> c.assurance == Version(meta.versions.assurance.value))
              && (meta.versions.assurance.Some? ==> 1 <= |meta.versions.assurance.value| <= 32)
              && meta.engine == c.engine && 1 <= |c.engine.library| <= 64 && 1 <= |c.engine.storage| <= 64
              && meta.summary == SummaryOf(c.relations) && Summarizable(c.relations)
              && LogicalDigest(p.digest, c.sections, tables).Some?
              && meta.logicalSha256 == p.hex(LogicalDigest(p.digest, c.sections, tables).value)
  {
    hide Summarizable, Digestible, BaseTables, LogicalDigest, SummaryOf;
  }

  /** No two byte strings share a hash. */
  ghost predicate CollisionFree(p: Platform) {
    Injective(p.digest) && Injective(p.hex)
  }

  lemma EqualHashesEqualBytes(p: Platform, a: Bytes, b: Bytes)
    requires CollisionFree(p) && Sha256(p, a) == Sha256(p, b)
    ensures a == b
  {
    assert p.digest(a) == p.digest(b);
  }

  /** The hash of the manifest pins the whole backup: two directories that verify under
      one manifest hash hold the same manifest and the same database, byte for byte. */
  lemma ManifestHashPinsBackup(p: Platform, v: BackupView, w: BackupView)
    requires CollisionFree(p) && LoadAndVerify(p, v).Ok? && LoadAndVerify(p, w).Ok?
    requires LoadAndVerify(p, v).value.manifestSha256 == LoadAndVerify(p, w).value.manifestSha256
    ensures v.manifest == w.manifest && v.database == w.database
    ensures LoadAndVerify(p, v) == LoadAndVerify(p, w)
  {
    hide Describes, OpenMetadata, HeadValid, CatalogWithinLimits, TablesValid, Sha256, CollisionFree;
    EqualHashesEqualBytes(p, v.manifest, w.manifest);
    EqualHashesEqualBytes(p, v.database, w.database);
  }

  predicate ProperContent(c: Content) {
    ProperCatalog(c.sections, BaseTables(c.relations))
  }

  /** Equal metadata means equal contents: the same rows in every metadata section and
      every base table, the same schema versions and engine. */
  lemma EqualMetadataEqualContent(p: Platform, a: Content, b: Content)
    requires CollisionFree(p) && ProperContent(a) && ProperContent(b)
    requires MetadataOf(p, a).Some? && MetadataOf(p, a) == MetadataOf(p, b)
    ensures a.sections == b.sections && BaseTables(a.relations) == BaseTables(b.relations)
    ensures a.local == b.local && a.assurance == b.assurance && a.engine == b.engine
  {
    hide Summarizable, Digestible, BaseTables, LogicalDigest, IsSafeIdentifier, Schemas, TotalRows, Views,
         ProperCatalog;
    var s, t := BaseTables(a.relations), BaseTables(b.relations);
    var x, y := LogicalDigest(p.digest, a.sections, s), LogicalDigest(p.digest, b.sections, t);
    assert p.hex(x.value) == p.hex(y.value);
    assert Counts(s) == Counts(t);
    forall k | 0 <= k < |s| ensures s[k].schema == t[k].schema && s[k].name == t[k].name && |s[k].rows| == |t[k].rows| {
      assert Counts(s)[k] == Counts(t)[k];
    }
    EqualDigestsEqualCatalogs(p.digest, a.sections, s, b.sections, t);
  }

  lemma DescribedMetadataEqual(m: Manifest, a: Metadata, b: Metadata)
    requires Describes(m, a) && Describes(m, b)
    ensures a == b
  {
  }

  /** What the producer checks before it publishes and what the libraries promise it. */
  predicate Producible(p: Platform, relations: seq<Relation>, meta: Metadata, backupId: string, createdAt: string,
      marker: string, database: Bytes)
  {
    && Summarizable(relations) && meta.summary == SummaryOf(relations)
    && VersionsFit(meta.versions) && EngineFits(meta.engine) && |database| <= MAX_DATABASE_BYTES
    && p.formats.isUuid(backupId) && p.formats.isTime(createdAt) && p.formats.isSha(marker)
    && p.formats.isSha(Sha256(p, database)) && p.formats.isSha(meta.logicalSha256)
    && OpenMetadata(p, database, None) == Some(meta)
  }

  /** A manifest built for a non-empty copy of a sorted catalog verifies, and only then. */
  lemma BuiltBackupVerifies(p: Platform, relations: seq<Relation>, meta: Metadata, backupId: string,
      createdAt: string, marker: string, database: Bytes)
    requires Producible(p, relations, meta, backupId, createdAt, marker, database)
    ensures var m := BuildManifest(meta, backupId, createdAt, marker, |database|, Sha256(p, database));
            p.decode(p.encode(m)) == Some(m) && 1 <= |p.encode(m)| <= MAX_MANIFEST_BYTES ==>
              (LoadAndVerify(p, BackupView(true, p.encode(m), database, false)) == Ok(Verified(m,
                  Sha256(p, p.encode(m)))) <==>
               database != [] && Ascending(CountKeys(Counts(BaseTables(relations)))))
  {
    hide HeadValid, CatalogWithinLimits, TablesValid, OpenMetadata, Ascending, Summarizable, VersionsFit, EngineFits,
         SummaryOf, Sha256;
    BuiltManifestAccepted(p.formats, relations, meta, backupId, createdAt, marker, |database|, Sha256(p, database));
  }
}
