/** The catalog summary that goes into a backup manifest and the validator that reads
    it back (tools/local-stack/local_stack.py:613-660, 1015-1152, 2736-2759). */
module BackupManifest {
  import opened Basics
  import opened CatalogDigest
  import opened TextOrder

  const SCHEMA_VERSION := "networkagent-local-cold-backup/1.0"
  const DATABASE_NAME := "networkagent.duckdb"
  const MAX_DATABASE_BYTES: nat := 128 * 1024 * 1024
  const MAX_MANIFEST_BYTES: nat := 16 * 1024
  const MAX_SCHEMAS: nat := 4
  const MAX_TABLES: nat := 64
  const MAX_VIEWS: nat := 16
  const MAX_ROWS: nat := 100_000

  datatype Code =
    | InvalidArguments | WorkspaceBusy | UnsafeWorkspace | DependenciesMissing
    | BackupFailed | BackupTooLarge | BackupInvalid | BackupExists
    | ManifestMismatch | RestoreFailed | NotInitialized

  // ---- the catalog ----

  datatype Kind = View | BaseTable | OtherKind
  datatype Relation = Relation(schema: string, name: string, kind: Kind, rows: seq<Row>)
  datatype TableCount = TableCount(schema: string, name: string, rows: int)
  datatype Summary = Summary(tables: seq<TableCount>, schemaCount: int, tableCount: int, viewCount: int, rowCount: int)

  function BaseTables(relations: seq<Relation>): (tables: seq<Table>)
    ensures |tables| <= |relations|
  {
    if relations == [] then []
    else
      var last := relations[|relations| - 1];
      BaseTables(relations[..|relations| - 1]) +
      (if last.kind.BaseTable? then [Table(last.schema, last.name, last.rows)] else [])
  }

  function Counted(t: Table): TableCount {
    TableCount(t.schema, t.name, |t.rows|)
  }

  function Counts(tables: seq<Table>): (counts: seq<TableCount>)
    ensures |counts| == |tables|
  {
    seq(|tables|, i requires 0 <= i < |tables| => Counted(tables[i]))
  }

  function Views(relations: seq<Relation>): nat {
    if relations == [] then 0
    else Views(relations[..|relations| - 1]) + (if relations[|relations| - 1].kind.View? then 1 else 0)
  }

  function TotalRows(counts: seq<TableCount>): int {
    if counts == [] then 0
    else TotalRows(counts[..|counts| - 1]) + counts[|counts| - 1].rows
  }

  function Schemas(counts: seq<TableCount>): set<string> {
    set i | 0 <= i < |counts| :: counts[i].schema
  }

  function SummaryOf(relations: seq<Relation>): Summary {
    var counts := Counts(BaseTables(relations));
    Summary(counts, |Schemas(counts)|, |counts|, Views(relations), TotalRows(counts))
  }

  predicate Recognized(r: Relation) {
    IsSafeIdentifier(r.schema) && IsSafeIdentifier(r.name) && !r.kind.OtherKind?
  }

  predicate WithinLimits(s: Summary) {
    s.viewCount <= MAX_VIEWS && s.tableCount <= MAX_TABLES && s.rowCount <= MAX_ROWS && s.schemaCount <= MAX_SCHEMAS
  }

  predicate Summarizable(relations: seq<Relation>) {
    && |relations| <= MAX_TABLES + MAX_VIEWS
    && (forall i :: 0 <= i < |relations| ==> Recognized(relations[i]))
    && WithinLimits(SummaryOf(relations))
    && BaseTables(relations) != []
  }

  // Every count only grows along the list.

  lemma SummarySnoc(relations: seq<Relation>, k: nat)
    requires k < |relations|
    ensures var before, after, r := relations[..k], relations[..k + 1], relations[k];
            var table, count := Table(r.schema, r.name, r.rows), TableCount(r.schema, r.name, |r.rows|);
            && BaseTables(after) == BaseTables(before) + (if r.kind.BaseTable? then [table] else [])
            && Counts(BaseTables(after)) == Counts(BaseTables(before)) + (if r.kind.BaseTable? then [count] else [])
            && Views(after) == Views(before) + (if r.kind.View? then 1 else 0)
  {
    assert relations[..k + 1][..k] == relations[..k];
  }

  lemma TotalSnoc(counts: seq<TableCount>, c: TableCount)
    ensures TotalRows(counts + [c]) == TotalRows(counts) + c.rows
    ensures Schemas(counts + [c]) == Schemas(counts) + {c.schema}
  {
    assert (counts + [c])[..|counts|] == counts;
    forall s | s in Schemas(counts) ensures s in Schemas(counts + [c]) {
      var i :| 0 <= i < |counts| && counts[i].schema == s;
      assert (counts + [c])[i].schema == s;
    }
    assert (counts + [c])[|counts|].schema == c.schema;
  }

  function RowsOf(relations: seq<Relation>): int {
    TotalRows(Counts(BaseTables(relations)))
  }

  lemma RowsSnoc(relations: seq<Relation>, k: nat)
    requires k < |relations|
    ensures var r := relations[k];
            RowsOf(relations[..k + 1]) == RowsOf(relations[..k]) + (if r.kind.BaseTable? then |r.rows| else 0)
  {
    hide BaseTables, Counts, TotalRows;
    var r := relations[k];
    SummarySnoc(relations, k);
    TotalSnoc(Counts(BaseTables(relations[..k])), TableCount(r.schema, r.name, |r.rows|));
    assert Counts(BaseTables(relations[..k])) + [] == Counts(BaseTables(relations[..k]));
  }

  lemma {:induction false} SummaryGrows(relations: seq<Relation>, k: nat)
    requires k <= |relations|
    ensures Views(relations[..k]) <= Views(relations)
    ensures |BaseTables(relations[..k])| <= |BaseTables(relations)|
    ensures RowsOf(relations[..k]) <= RowsOf(relations)
    decreases |relations| - k
  {
    hide BaseTables, Views, RowsOf;
    if k == |relations| {
      assert relations[..k] == relations;
    } else {
      SummaryGrows(relations, k + 1);
      SummarySnoc(relations, k);
      RowsSnoc(relations, k);
    }
  }

  lemma EmptySummary()
    ensures Counts(BaseTables([])) == [] && Views([]) == 0 && TotalRows([]) == 0 && Schemas([]) == {}
  {
  }

  /** `_catalog_summary`: one pass that stops at the first limit it crosses. */
  method CatalogSummary(relations: seq<Relation>) returns (r: Result<Summary, Code>)
    ensures r.Ok? <==> Summarizable(relations)
    ensures r.Ok? ==> r.value == SummaryOf(relations)
    ensures r.Raise? ==> r.error == BackupTooLarge || r.error == BackupFailed
    ensures r == Raise(BackupTooLarge) ==> |relations| > MAX_TABLES + MAX_VIEWS || !WithinLimits(SummaryOf(relations))
    ensures r == Raise(BackupFailed) ==>
            BaseTables(relations) == [] || exists i :: 0 <= i < |relations| && !Recognized(relations[i])
  {
    hide IsSafeIdentifier, Schemas, BaseTables, Counts, TotalRows, Views;
    EmptySummary();
    assert relations[..0] == [];
    var limit := MAX_TABLES + MAX_VIEWS + 1;
    var fetched := if |relations| <= limit then relations else relations[..limit];
    if |fetched| > MAX_TABLES + MAX_VIEWS {
      return Raise(BackupTooLarge);
    }
    var tables: seq<TableCount>, viewCount, rowCount, schemas := [], 0, 0, {};
    for k := 0 to |fetched|
      invariant tables == Counts(BaseTables(relations[..k])) && viewCount == Views(relations[..k])
      invariant rowCount == TotalRows(tables) && schemas == Schemas(tables)
      invariant forall i :: 0 <= i < k ==> Recognized(relations[i])
      invariant viewCount <= MAX_VIEWS && |tables| <= MAX_TABLES && rowCount <= MAX_ROWS
    {
      var relation := fetched[k];
      SummarySnoc(relations, k);
      SummaryGrows(relations, k + 1);
      if !IsSafeIdentifier(relation.schema) || !IsSafeIdentifier(relation.name) {
        assert !Recognized(relations[k]);
        return Raise(BackupFailed);
      }
      if relation.kind.View? {
        viewCount := viewCount + 1;
        if viewCount > MAX_VIEWS {
          return Raise(BackupTooLarge);
        }
        continue;
      }
      if !relation.kind.BaseTable? {
        assert !Recognized(relations[k]);
        return Raise(BackupFailed);
      }
      var counted := TableCount(relation.schema, relation.name, |relation.rows|);
      TotalSnoc(tables, counted);
      schemas := schemas + {relation.schema};
      tables := tables + [counted];
      rowCount := rowCount + counted.rows;
      if |tables| > MAX_TABLES {
        return Raise(BackupTooLarge);
      }
      if rowCount > MAX_ROWS {
        return Raise(BackupTooLarge);
      }
    }
    assert relations[..|fetched|] == relations;
    if tables == [] {
      return Raise(BackupFailed);
    }
    if |schemas| > MAX_SCHEMAS {
      return Raise(BackupTooLarge);
    }
    return Ok(Summary(tables, |schemas|, |tables|, viewCount, rowCount));
  }

  lemma {:induction false} RowsNonNegative(relations: seq<Relation>)
    ensures RowsOf(relations) >= 0
  {
    if relations == [] {
      EmptySummary();
    } else {
      RowsNonNegative(relations[..|relations| - 1]);
      RowsSnoc(relations, |relations| - 1);
      assert relations[..|relations|] == relations;
    }
  }

  // ---- order of tables ----

  datatype Key = Key(schema: string, name: string)

  predicate KeyLess(a: Key, b: Key) {
    Less(a.schema, b.schema) || (a.schema == b.schema && Less(a.name, b.name))
  }

  /** Schema first, then name. */
  lemma KeyLessIsBefore(a: Key, b: Key)
    ensures KeyLess(a, b) <==> TupleBefore([a.schema, a.name], [b.schema, b.name])
  {
    hide Before;
    LessIsBefore(a.schema, b.schema);
    LessIsBefore(a.name, b.name);
    var x, y := [a.schema, a.name], [b.schema, b.name];
    assert x[..0] == y[..0];
    assert x[..1] == [a.schema] && y[..1] == [b.schema];
    assert KeyLess(a, b) ==> Before(x[0], y[0]) || (x[..1] == y[..1] && Before(x[1], y[1]));
  }

  lemma KeyOrder(a: Key, b: Key)
    ensures KeyLess(a, b) ==> !KeyLess(b, a) && a != b
    ensures KeyLess(a, b) || KeyLess(b, a) || a == b
  {
    LessAsymmetric(a.schema, b.schema);
    LessAsymmetric(a.name, b.name);
    LessAsymmetric(b.schema, a.schema);
    LessTotal(a.schema, b.schema);
    LessTotal(a.name, b.name);
  }

  /** Ascending without repetition. */
  ghost predicate Ascending(keys: seq<Key>) {
    forall i, j :: 0 <= i < j < |keys| ==> KeyLess(keys[i], keys[j])
  }

  predicate NonDescending(keys: seq<Key>) {
    forall i, j :: 0 <= i < j < |keys| ==> !KeyLess(keys[j], keys[i])
  }

  function CountKeys(counts: seq<TableCount>): (keys: seq<Key>)
    ensures |keys| == |counts|
  {
    seq(|counts|, i requires 0 <= i < |counts| => Key(counts[i].schema, counts[i].name))
  }

  function RelationKeys(relations: seq<Relation>): (keys: seq<Key>)
    ensures |keys| == |relations|
  {
    seq(|relations|, i requires 0 <= i < |relations| => Key(relations[i].schema, relations[i].name))
  }

  function Elements(keys: seq<Key>): set<Key> {
    set i | 0 <= i < |keys| :: keys[i]
  }

  ghost predicate Distinct(keys: seq<Key>) {
    forall i, j :: 0 <= i < j < |keys| ==> keys[i] != keys[j]
  }

  lemma ElementsSnoc(keys: seq<Key>)
    requires keys != []
    ensures Elements(keys) == Elements(keys[..|keys| - 1]) + {keys[|keys| - 1]}
  {
    var init, last := keys[..|keys| - 1], keys[|keys| - 1];
    forall k | k in Elements(keys) ensures k in Elements(init) + {last} {
      var i :| 0 <= i < |keys| && keys[i] == k;
      assert i < |init| ==> init[i] == k;
    }
    forall k | k in Elements(init) ensures k in Elements(keys) {
      var i :| 0 <= i < |init| && init[i] == k;
      assert keys[i] == k;
    }
  }

  lemma {:induction false} DistinctIsLarge(keys: seq<Key>)
    requires Distinct(keys)
    ensures |Elements(keys)| == |keys|
  {
    if keys != [] {
      var init, last := keys[..|keys| - 1], keys[|keys| - 1];
      DistinctIsLarge(init);
      ElementsSnoc(keys);
      assert last !in Elements(init);
    }
  }

  lemma {:induction false} LargeIsDistinct(keys: seq<Key>)
    ensures |Elements(keys)| <= |keys|
    ensures |Elements(keys)| == |keys| ==> Distinct(keys)
  {
    if keys != [] {
      var init, last := keys[..|keys| - 1], keys[|keys| - 1];
      LargeIsDistinct(init);
      ElementsSnoc(keys);
      if |Elements(keys)| == |keys| {
        assert last !in Elements(init);
        forall i | 0 <= i < |init| ensures keys[i] != last {
          InElements(init, i);
        }
      }
    }
  }

  lemma InElements(keys: seq<Key>, i: nat)
    requires i < |keys|
    ensures keys[i] in Elements(keys)
  {
  }

  /** The validator's two checks, order and distinctness, together say ascending. */
  lemma AscendingIff(keys: seq<Key>)
    ensures NonDescending(keys) && |Elements(keys)| == |keys| <==> Ascending(keys)
  {
    LargeIsDistinct(keys);
    if NonDescending(keys) && Distinct(keys) {
      forall i, j | 0 <= i < j < |keys| ensures KeyLess(keys[i], keys[j]) {
        KeyOrder(keys[i], keys[j]);
      }
    }
    if Ascending(keys) {
      forall i, j | 0 <= i < j < |keys| ensures !KeyLess(keys[j], keys[i]) && keys[i] != keys[j] {
        KeyOrder(keys[i], keys[j]);
      }
      DistinctIsLarge(keys);
    }
  }

  // ---- the manifest ----

  datatype Versions = Versions(local: string, assurance: Option<string>)
  datatype Engine = Engine(library: string, storage: string)
  datatype DatabaseRecord = DatabaseRecord(bytes: int, checkpointed: bool, filename: string, sha256: string)
  datatype CatalogRecord = CatalogRecord(
    logicalEquivalence: bool, logicalSha256: string,
    rowCount: int, schemaCount: int, tableCount: int, viewCount: int, tables: seq<TableCount>)
  datatype Manifest = Manifest(
    schema: string, backupId: string, createdAt: string, marker: string,
    versions: Versions, engine: Engine, database: DatabaseRecord, catalog: CatalogRecord)

  /** The textual formats the validator recognizes. */
  datatype Formats = Formats(isSha: string -> bool, isUuid: string -> bool, isTime: string -> bool)

  /** What `_database_metadata` reads from an open database. */
  datatype Metadata = Metadata(summary: Summary, logicalSha256: string, versions: Versions, engine: Engine)

  predicate Bounded(s: string, maximum: nat) {
    1 <= |s| <= maximum
  }

  predicate VersionsFit(v: Versions) {
    Bounded(v.local, 32) && (v.assurance.Some? ==> Bounded(v.assurance.value, 32))
  }

  predicate EngineFits(e: Engine) {
    Bounded(e.library, 64) && Bounded(e.storage, 64)
  }

  function BuildManifest(meta: Metadata, backupId: string, createdAt: string, marker: string, bytes: int,
      sha256: string): Manifest {
    Manifest(
      SCHEMA_VERSION, backupId, createdAt, marker, meta.versions, meta.engine,
      DatabaseRecord(bytes, true, DATABASE_NAME, sha256),
      CatalogRecord(true, meta.logicalSha256, meta.summary.rowCount, meta.summary.schemaCount,
                    meta.summary.tableCount, meta.summary.viewCount, meta.summary.tables))
  }

  predicate HeadValid(f: Formats, m: Manifest) {
    && m.schema == SCHEMA_VERSION && f.isUuid(m.backupId) && f.isTime(m.createdAt) && f.isSha(m.marker)
    && VersionsFit(m.versions) && EngineFits(m.engine)
    && m.database.filename == DATABASE_NAME && 1 <= m.database.bytes <= MAX_DATABASE_BYTES
    && f.isSha(m.database.sha256) && m.database.checkpointed
    && m.catalog.logicalEquivalence && f.isSha(m.catalog.logicalSha256)
    && m.catalog.rowCount >= 0 && m.catalog.schemaCount >= 0 && m.catalog.tableCount >= 0 && m.catalog.viewCount >= 0
  }

  predicate CatalogWithinLimits(c: CatalogRecord) {
    c.rowCount <= MAX_ROWS && c.schemaCount <= MAX_SCHEMAS && c.tableCount <= MAX_TABLES && c.viewCount <= MAX_VIEWS
  }

  predicate TableValid(t: TableCount) {
    IsSafeIdentifier(t.schema) && IsSafeIdentifier(t.name) && t.rows >= 0
  }

  predicate TablesValid(c: CatalogRecord) {
    && 1 <= |c.tables| <= MAX_TABLES
    && (forall i :: 0 <= i < |c.tables| ==> TableValid(c.tables[i]))
    && NonDescending(CountKeys(c.tables)) && |Elements(CountKeys(c.tables))| == |c.tables|
    && c.tableCount == |c.tables| && c.schemaCount == |Schemas(c.tables)| && c.rowCount == TotalRows(c.tables)
  }

  predicate Accepted(f: Formats, m: Manifest) {
    HeadValid(f, m) && CatalogWithinLimits(m.catalog) && TablesValid(m.catalog)
  }

  /** Everything before the catalog's limits. */
  method CheckHead(f: Formats, m: Manifest) returns (ok: bool)
    ensures ok <==> HeadValid(f, m)
  {
    if m.schema != SCHEMA_VERSION || !f.isUuid(m.backupId) || !f.isTime(m.createdAt) || !f.isSha(m.marker) {
      return false;
    }
    if |m.versions.local| < 1 || |m.versions.local| > 32 {
      return false;
    }
    if m.versions.assurance.Some? && (|m.versions.assurance.value| < 1 || |m.versions.assurance.value| > 32) {
      return false;
    }
    if |m.engine.library| < 1 || |m.engine.library| > 64 || |m.engine.storage| < 1 || |m.engine.storage| > 64 {
      return false;
    }
    if m.database.filename != DATABASE_NAME || m.database.bytes < 1 || m.database.bytes > MAX_DATABASE_BYTES {
      return false;
    }
    if !f.isSha(m.database.sha256) || !m.database.checkpointed {
      return false;
    }
    if !m.catalog.logicalEquivalence || !f.isSha(m.catalog.logicalSha256) {
      return false;
    }
    return m.catalog.rowCount >= 0 && m.catalog.schemaCount >= 0 && m.catalog.tableCount >= 0
        && m.catalog.viewCount >= 0;
  }

  /** `_validate_manifest`, on a parsed document of the right shape. */
  method ValidateManifest(f: Formats, m: Manifest) returns (r: Result<Manifest, Code>)
    ensures r.Ok? <==> Accepted(f, m)
    ensures r.Ok? ==> r.value == m
    ensures r.Raise? ==>
            r.error == (if HeadValid(f, m) && !CatalogWithinLimits(m.catalog) then BackupTooLarge else BackupInvalid)
  {
    var head := CheckHead(f, m);
    if !head {
      return Raise(BackupInvalid);
    }
    var c := m.catalog;
    if c.rowCount > MAX_ROWS || c.schemaCount > MAX_SCHEMAS || c.tableCount > MAX_TABLES || c.viewCount > MAX_VIEWS {
      return Raise(BackupTooLarge);
    }
    var raw := m.catalog.tables;
    if raw == [] || |raw| > MAX_TABLES {
      return Raise(BackupInvalid);
    }
    var tables: seq<TableCount>, rows, schemas := [], 0, {};
    EmptySummary();
    for k := 0 to |raw|
      invariant tables == raw[..k] && rows == TotalRows(tables) && schemas == Schemas(tables)
      invariant forall i :: 0 <= i < k ==> TableValid(raw[i])
    {
      if !IsSafeIdentifier(raw[k].schema) || !IsSafeIdentifier(raw[k].name) || raw[k].rows < 0 {
        assert !TableValid(raw[k]);
        return Raise(BackupInvalid);
      }
      TotalSnoc(tables, raw[k]);
      rows, schemas := rows + raw[k].rows, schemas + {raw[k].schema};
      tables := tables + [raw[k]];
    }
    assert tables == raw;
    var keys := CountKeys(tables);
    if !NonDescending(keys) || |Elements(keys)| != |tables| {
      return Raise(BackupInvalid);
    }
    if m.catalog.tableCount != |tables| || m.catalog.schemaCount != |schemas| || m.catalog.rowCount != rows {
      return Raise(BackupInvalid);
    }
    return Ok(m);
  }

  /** What an accepted manifest looks like, with every constant written out. */
  lemma AcceptedSpelled(f: Formats, m: Manifest)
    ensures Accepted(f, m) <==>
            && m.schema == "networkagent-local-cold-backup/1.0" && m.database.filename == "networkagent.duckdb"
            && f.isUuid(m.backupId) && f.isTime(m.createdAt) && f.isSha(m.marker)
            && 1 <= |m.versions.local| <= 32 && (m.versions.assurance.Some? ==> 1 <= |m.versions.assurance.value| <= 32)
            && 1 <= |m.engine.library| <= 64 && 1 <= |m.engine.storage| <= 64
            && 1 <= m.database.bytes <= 134_217_728 && m.database.checkpointed && f.isSha(m.database.sha256)
            && m.catalog.logicalEquivalence && f.isSha(m.catalog.logicalSha256)
            && 0 <= m.catalog.viewCount <= 16 && 1 <= m.catalog.tableCount == |m.catalog.tables| <= 64
            && m.catalog.schemaCount == |Schemas(m.catalog.tables)| <= 4
            && 0 <= m.catalog.rowCount == TotalRows(m.catalog.tables) <= 100_000
            && (forall i :: 0 <= i < |m.catalog.tables| ==> TableSpelled(m.catalog.tables[i]))
            && (forall i, j :: 0 <= i < j < |m.catalog.tables| ==>
                TableBefore(m.catalog.tables[i], m.catalog.tables[j]))
  {
    hide Schemas, TotalRows, NonDescending, Elements, Before, KeyLess, IsSafeIdentifier;
    var tables := m.catalog.tables;
    AscendingIff(CountKeys(tables));
    forall i | 0 <= i < |tables| ensures TableSpelled(tables[i]) <==> TableValid(tables[i]) {
      SafeIdentifierSpelled(tables[i].schema);
      SafeIdentifierSpelled(tables[i].name);
    }
    forall i, j | 0 <= i < j < |tables|
      ensures TableBefore(tables[i], tables[j]) <==> KeyLess(CountKeys(tables)[i], CountKeys(tables)[j])
    {
      KeyLessIsBefore(CountKeys(tables)[i], CountKeys(tables)[j]);
    }
  }

  predicate IdentifierSpelled(s: string) {
    1 <= |s| <= 64 && !(48 <= s[0] as int <= 57) && forall i :: 0 <= i < |s| ==> WordCode(s[i] as int)
  }

  predicate TableSpelled(t: TableCount) {
    IdentifierSpelled(t.schema) && IdentifierSpelled(t.name) && t.rows >= 0
  }

  ghost predicate TableBefore(a: TableCount, b: TableCount) {
    TupleBefore([a.schema, a.name], [b.schema, b.name])
  }

  /** What the producer puts where. */
  lemma BuiltSpelled(meta: Metadata, backupId: string, createdAt: string, marker: string, bytes: int, sha256: string)
    ensures var m := BuildManifest(meta, backupId, createdAt, marker, bytes, sha256);
            && m.backupId == backupId && m.createdAt == createdAt && m.marker == marker
            && m.versions.local == meta.versions.local && m.versions.assurance == meta.versions.assurance
            && m.engine == meta.engine && m.database.bytes == bytes && m.database.sha256 == sha256
            && m.catalog.logicalSha256 == meta.logicalSha256 && m.catalog.tables == meta.summary.tables
            && m.catalog.rowCount == meta.summary.rowCount && m.catalog.schemaCount == meta.summary.schemaCount
            && m.catalog.tableCount == meta.summary.tableCount && m.catalog.viewCount == meta.summary.viewCount
  {
  }

  /** The summary of a catalog: its base tables with their row counts, in its order. */
  lemma SummarySpelled(relations: seq<Relation>)
    ensures var s := SummaryOf(relations);
            && s.tables == Counts(BaseTables(relations)) && s.tableCount == |s.tables|
            && s.schemaCount == |set i | 0 <= i < |s.tables| :: s.tables[i].schema|
            && s.viewCount == |set i | 0 <= i < |relations| && relations[i].kind.View?|
            && forall t :: t in s.tables <==> exists i :: 0 <= i < |relations| && IsCountOf(relations[i], t)
  {
    ViewsCounted(relations);
    TablesListed(relations);
    var tables := SummaryOf(relations).tables;
    assert Schemas(tables) == set i | 0 <= i < |tables| :: tables[i].schema;
  }

  /** `t` is what the summary lists for the base table `r`. */
  predicate IsCountOf(r: Relation, t: TableCount) {
    r.kind.BaseTable? && t.schema == r.schema && t.name == r.name && t.rows == |r.rows|
  }

  lemma {:induction false} ViewsCounted(relations: seq<Relation>)
    ensures Views(relations) == |set i | 0 <= i < |relations| && relations[i].kind.View?|
  {
    if relations != [] {
      var n := |relations| - 1;
      ViewsCounted(relations[..n]);
      var before := set i | 0 <= i < n && relations[..n][i].kind.View?;
      var after := set i | 0 <= i < |relations| && relations[i].kind.View?;
      assert after == before + (if relations[n].kind.View? then {n} else {});
    }
  }

  lemma {:induction false} TablesListed(relations: seq<Relation>)
    ensures forall t :: t in Counts(BaseTables(relations)) <==>
            exists i :: 0 <= i < |relations| && IsCountOf(relations[i], t)
  {
    if relations != [] {
      var n := |relations| - 1;
      TablesListed(relations[..n]);
      SummarySnoc(relations, n);
      assert relations[..n + 1] == relations;
      var before, after := Counts(BaseTables(relations[..n])), Counts(BaseTables(relations));
      forall t | t in before ensures exists i :: 0 <= i < |relations| && IsCountOf(relations[i], t) {
        var i :| 0 <= i < n && IsCountOf(relations[..n][i], t);
        assert relations[i] == relations[..n][i];
      }
      forall i, t | 0 <= i < n && IsCountOf(relations[i], t) ensures t in before {
        assert relations[..n][i] == relations[i];
      }
      assert relations[n].kind.BaseTable? ==>
          after == before + [TableCount(relations[n].schema, relations[n].name, |relations[n].rows|)];
    }
  }

  // ---- producer and validator agree ----

  lemma {:induction false} TableKeysInherit(relations: seq<Relation>)
    requires Ascending(RelationKeys(relations))
    ensures Ascending(CountKeys(Counts(BaseTables(relations))))
    ensures forall k :: k in CountKeys(Counts(BaseTables(relations))) ==> k in RelationKeys(relations)
  {
    if relations != [] {
      var n := |relations| - 1;
      var init, last := relations[..n], relations[n];
      assert RelationKeys(init) == RelationKeys(relations)[..n];
      TableKeysInherit(init);
      var keys, keys' := CountKeys(Counts(BaseTables(init))), CountKeys(Counts(BaseTables(relations)));
      if last.kind.BaseTable? {
        assert keys' == keys + [Key(last.schema, last.name)];
        forall i | 0 <= i < |keys| ensures KeyLess(keys[i], Key(last.schema, last.name)) {
          assert keys[i] in RelationKeys(init);
          var j :| 0 <= j < n && RelationKeys(init)[j] == keys[i];
          assert KeyLess(RelationKeys(relations)[j], RelationKeys(relations)[n]);
        }
      } else {
        assert keys' == keys;
      }
      forall k | k in keys' ensures k in RelationKeys(relations) {
        if k in keys {
          var j :| 0 <= j < n && RelationKeys(init)[j] == k;
          assert RelationKeys(relations)[j] == k;
        } else {
          assert RelationKeys(relations)[n] == k;
        }
      }
    }
  }

  lemma {:induction false} TablesRecognized(relations: seq<Relation>)
    requires forall i :: 0 <= i < |relations| ==> Recognized(relations[i])
    ensures forall i :: 0 <= i < |BaseTables(relations)| ==> TableValid(Counts(BaseTables(relations))[i])
  {
    if relations != [] {
      var n := |relations| - 1;
      TablesRecognized(relations[..n]);
      SummarySnoc(relations, n);
      assert relations[..n + 1] == relations && Recognized(relations[n]);
      var counts, counts' := Counts(BaseTables(relations[..n])), Counts(BaseTables(relations));
      forall i | 0 <= i < |counts'| ensures TableValid(counts'[i]) {
        assert i < |counts| ==> counts'[i] == counts[i];
      }
    }
  }

  /** A manifest built from a summarized catalog is accepted exactly when the copied
      file is not empty and the tables are listed in ascending order. */
  lemma BuiltManifestAccepted(f: Formats, relations: seq<Relation>, meta: Metadata, backupId: string, createdAt: string,
                              marker: string, bytes: nat, sha256: string)
    requires Summarizable(relations) && meta.summary == SummaryOf(relations)
    requires VersionsFit(meta.versions) && EngineFits(meta.engine) && bytes <= MAX_DATABASE_BYTES
    requires f.isUuid(backupId) && f.isTime(createdAt) && f.isSha(marker) && f.isSha(sha256)
    requires f.isSha(meta.logicalSha256)
    ensures Accepted(f, BuildManifest(meta, backupId, createdAt, marker, bytes, sha256)) <==>
            bytes >= 1 && Ascending(CountKeys(Counts(BaseTables(relations))))
  {
    hide IsSafeIdentifier, NonDescending, Elements, Schemas, VersionsFit, EngineFits, TotalRows, Views, Ascending;
    TablesRecognized(relations);
    RowsNonNegative(relations);
    AscendingIff(CountKeys(Counts(BaseTables(relations))));
  }

  /** Sorted, duplicate-free query results always give an acceptable manifest. */
  lemma SortedCatalogAccepted(f: Formats, relations: seq<Relation>, meta: Metadata, backupId: string, createdAt: string,
                              marker: string, bytes: nat, sha256: string)
    requires Summarizable(relations) && meta.summary == SummaryOf(relations)
    requires VersionsFit(meta.versions) && EngineFits(meta.engine) && 1 <= bytes <= MAX_DATABASE_BYTES
    requires f.isUuid(backupId) && f.isTime(createdAt) && f.isSha(marker) && f.isSha(sha256)
    requires f.isSha(meta.logicalSha256)
    requires Ascending(RelationKeys(relations))
    ensures Accepted(f, BuildManifest(meta, backupId, createdAt, marker, bytes, sha256))
  {
    hide Accepted, Ascending, Summarizable;
    TableKeysInherit(relations);
    BuiltManifestAccepted(f, relations, meta, backupId, createdAt, marker, bytes, sha256);
  }
}
