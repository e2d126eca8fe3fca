/** A smallest backup that verifies, and what a stray log makes of it. It shows that the
    hypotheses about libraries and backups can all be met together. */
module SampleBackup {
  import opened Basics
  import opened Encoding
  import opened Fingerprint
  import opened CatalogDigest
  import opened BackupManifest
  import opened BackupVerify
  import opened Restore
  import opened BackupRoundTrip

  const DATABASE: Bytes := [1]
  const MANIFEST: Bytes := [2]
  const LOG: Bytes := [3]

  /** One empty table, and nothing in the metadata sections. */
  const NO_SECTIONS: Sections := seq(SECTION_COUNT, _ => [])
  const TABLE: Table := Table("main", "t", [])
  const RELATIONS: seq<Relation> := [Relation("main", "t", BaseTable, [])]
  const CONTENT: Content := Content(NO_SECTIONS, RELATIONS, Version("1"), NoTable, Engine("d", "s"))

  /** Bytes as text, one character each. */
  function Plain(b: Bytes): (s: string)
    ensures |s| == |b|
  {
    seq(|b|, i requires 0 <= i < |b| => b[i] as char)
  }

  lemma PlainInjective()
    ensures Injective(Plain)
  {
    forall x, y | Plain(x) == Plain(y) ensures x == y {
      assert |x| == |y|;
      forall i | 0 <= i < |x| ensures x[i] == y[i] {
        assert Plain(x)[i] == Plain(y)[i];
      }
    }
  }

  /** Libraries that never collide, show `CONTENT` in every file, and print and parse
      one manifest. */
  function Libraries(m: Option<Manifest>): Platform {
    Platform((b: Bytes) => b, Plain, Formats(_ => true, _ => true, _ => true), _ => m, _ => MANIFEST,
        (b, w) => Some(CONTENT))
  }

  lemma LibrariesCollisionFree(m: Option<Manifest>)
    ensures CollisionFree(Libraries(m))
  {
    PlainInjective();
  }

  // ---- the catalog can be digested ----

  lemma ShortFrame(name: Bytes, rendered: Bytes)
    requires |name| <= 100 && |rendered| <= 1000
    ensures Frame(name, rendered).Some? && |Frame(name, rendered).value| == |name| + |rendered| + 10
  {
    assert Power256(1) == 256 && Power256(2) == 65536 && Power256(3) >= 65536 && Power256(4) >= 65536;
    assert Power256(5) >= 65536 && Power256(6) >= 65536 && Power256(7) >= 65536;
  }

  lemma TextFrames(sha: Digester, b: Bytes)
    requires |b| <= 100
    ensures FrameValue(sha, Text(b)).Some? && |FrameValue(sha, Text(b)).value| == |b| + 13
  {
    ShortFrame(STR_TYPE, b);
  }

  lemma LabelFits(k: nat)
    requires k < SECTION_COUNT
    ensures |LABELS[k]| <= 100
  {
    assert |LABELS[0]| == 7 && |LABELS[1]| == 17 && |LABELS[2]| == 16 && |LABELS[3]| == 23;
    assert |LABELS[4]| == 17 && |LABELS[5]| == 7 && |LABELS[6]| == 9 && |LABELS[7]| == 5 && |LABELS[8]| == 6;
  }

  lemma {:induction false} SectionsFrame(sha: Digester, k: nat)
    requires k <= SECTION_COUNT
    ensures FrameAll(sha, SectionValues(NO_SECTIONS, k)).Some?
    decreases SECTION_COUNT - k
  {
    hide FrameValue, FrameAll, SectionValues, Ascii;
    if k == SECTION_COUNT {
      NoSectionsLeft(sha, NO_SECTIONS);
    } else {
      SectionsFrame(sha, k + 1);
      SectionStep(sha, NO_SECTIONS, k);
      LabelFits(k);
      AsciiLength(LABELS[k]);
      TextFrames(sha, Ascii(LABELS[k]));
      EmptyStream(sha);
    }
  }

  lemma AsciiLength(s: string)
    ensures |Ascii(s)| == |s|
  {
  }

  lemma HeaderFrames(p: Platform)
    requires p.digest == Libraries(None).digest
    ensures FrameValue(p.digest, Header(TABLE)).Some?
  {
    hide Frame, Ascii;
    var a, b := Text(Ascii("main")), Text(Ascii("t"));
    AsciiLength("main");
    AsciiLength("t");
    TextFrames(p.digest, a.utf8);
    TextFrames(p.digest, b.utf8);
    assert [a, b][1..] == [b];
    FrameOne(p.digest, b);
    ShortFrame(TUPLE_TYPE, FrameAll(p.digest, [a, b]).value);
  }

  lemma CatalogFrames(m: Option<Manifest>)
    ensures LogicalDigest(Libraries(m).digest, NO_SECTIONS, [TABLE]).Some?
  {
    hide FrameValue, FrameAll, SectionValues;
    var sha := Libraries(m).digest;
    SectionsFrame(sha, 0);
    HeaderFrames(Libraries(m));
    assert [TABLE][0..] == [TABLE] && [TABLE][1..] == [];
    TableStep(sha, [TABLE], 0);
    NoTablesLeft(sha);
    EmptyStream(sha);
    FrameAllAppend(sha, SectionValues(NO_SECTIONS, 0), TableValues([TABLE]));
  }

  // ---- the manifest of the catalog ----

  lemma SampleTables()
    ensures BaseTables(RELATIONS) == [TABLE] && Counts([TABLE]) == [TableCount("main", "t", 0)] && Views(RELATIONS) == 0
    ensures Schemas(Counts([TABLE])) == {"main"} && TotalRows(Counts([TABLE])) == 0
  {
    var r := RELATIONS[0];
    assert RELATIONS[..0] == [] && BaseTables([]) == [] && Views([]) == 0;
    TotalSnoc([], TableCount("main", "t", 0));
    assert [] + [TableCount("main", "t", 0)] == [TableCount("main", "t", 0)];
    EmptySummary();
  }

  lemma SampleSummarizable()
    ensures Summarizable(RELATIONS)
  {
    hide BaseTables, Counts, Views, Schemas, TotalRows;
    SampleTables();
    assert Recognized(RELATIONS[0]);
  }

  lemma SampleReadable(m: Option<Manifest>)
    ensures MetadataOf(Libraries(m), CONTENT).Some?
    ensures MetadataOf(Libraries(m), CONTENT) == MetadataOf(Libraries(None), CONTENT)
    ensures MetadataOf(Libraries(m), CONTENT).value.summary == SummaryOf(RELATIONS)
    ensures MetadataOf(Libraries(m), CONTENT).value.versions == Versions("1", None)
    ensures MetadataOf(Libraries(m), CONTENT).value.engine == Engine("d", "s")
  {
    hide LogicalDigest, Summarizable, SummaryOf, BaseTables;
    SampleTables();
    SampleSummarizable();
    CatalogFrames(m);
    assert Digestible(NO_SECTIONS, [TABLE]);
  }

  function SampleManifest(meta: Metadata): Manifest {
    BuildManifest(meta, "id", "now", "mark", |DATABASE|, Plain(DATABASE))
  }

  function Sample(meta: Metadata): Platform {
    Libraries(Some(SampleManifest(meta)))
  }

  function SampleView(): BackupView {
    BackupView(true, MANIFEST, DATABASE, false)
  }

  /** A backup of one empty table verifies, under libraries that never collide. */
  lemma SampleVerifies(meta: Metadata)
    requires MetadataOf(Libraries(None), CONTENT) == Some(meta)
    ensures CollisionFree(Sample(meta))
    ensures LoadAndVerify(Sample(meta), SampleView()) == Ok(Verified(SampleManifest(meta), Plain(MANIFEST)))
  {
    hide LoadAndVerify, Summarizable, SummaryOf, MetadataOf, Ascending, CollisionFree;
    LibrariesCollisionFree(Some(SampleManifest(meta)));
    SampleReadable(Some(SampleManifest(meta)));
    SampleReadable(None);
    SampleSummarizable();
    SampleTables();
    assert Ascending(CountKeys(Counts([TABLE]))) by { OneKeyAscends(); }
    assert Sha256(Sample(meta), DATABASE) == Plain(DATABASE) && Sha256(Sample(meta), MANIFEST) == Plain(MANIFEST);
    assert OpenMetadata(Sample(meta), DATABASE, None) == Some(meta);
    BuiltBackupVerifies(Sample(meta), RELATIONS, meta, "id", "now", "mark", DATABASE);
  }

  lemma OneKeyAscends()
    ensures Ascending(CountKeys(Counts([TABLE])))
  {
  }

  /** A restore that succeeds beside a stray log and leaves a database that does not open. */
  method RestoredButUnreadable() returns (p: Platform, target: StateDirectory, r: Result<Restoration, Code>)
    ensures CollisionFree(p) && p.logical(DATABASE, None) == Some(CONTENT)
    ensures r.Ok? && target.p == p && target.store.database.Some? && target.store.database.value.bytes == DATABASE
    ensures Logical(p, target.store) == None
  {
    hide LoadAndVerify, Logical, SampleManifest, MetadataOf;
    SampleReadable(None);
    var meta := MetadataOf(Libraries(None), CONTENT).value;
    SampleVerifies(meta);
    p := Showing(Sample(meta), DATABASE, LOG, None);
    target, r := OrphanLogMisleads(Sample(meta), SampleView(), Plain(MANIFEST), LOG, None);
  }
}
