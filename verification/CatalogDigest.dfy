/** The digest of a whole database catalog (tools/local-stack/local_stack.py:699-797):
    nine labelled metadata sections, then every table's header and rows. */
module CatalogDigest {
  import opened Basics
  import opened Encoding
  import opened Fingerprint

  datatype CatalogError = TooLarge | Unsafe | Overflow

  const MAX_CATALOG_RECORDS: nat := 1024
  const FETCH_SIZE: nat := 1024
  const SECTION_COUNT: nat := 9
  const LABELS: seq<string> := [
    "columns", "table_constraints", "key_column_usage", "referential_constraints",
    "check_constraints", "indexes", "sequences", "views", "macros"]
  const STREAM_PREFIX := "networkagent-local-logical-catalog-v1\0"

  type Row = seq<Value>

  /** A base table and the rows `SELECT * ... ORDER BY ALL` returns. */
  datatype Table = Table(schema: string, name: string, rows: seq<Row>)

  /** The result rows of the nine metadata queries. */
  type Sections = s: seq<seq<Row>> | |s| == SECTION_COUNT witness seq(SECTION_COUNT, _ => [])

  predicate IsAlpha(c: char) {
    'a' <= c <= 'z' || 'A' <= c <= 'Z'
  }

  predicate IsSafeIdentifier(s: string) {
    && 1 <= |s| <= 64
    && (IsAlpha(s[0]) || s[0] == '_')
    && (forall i :: 0 <= i < |s| ==> IsAlpha(s[i]) || '0' <= s[i] <= '9' || s[i] == '_')
  }

  // ---- the stream of values that is digested ----

  function Tuples(rows: seq<Row>): (t: seq<Value>)
    ensures |t| == |rows|
  {
    seq(|rows|, i requires 0 <= i < |rows| => Tuple(rows[i]))
  }

  function Label(k: nat): Value
    requires k < SECTION_COUNT
  {
    Text(Ascii(LABELS[k]))
  }

  /** The sections from the k-th on. */
  function SectionValues(sections: Sections, k: nat): seq<Value>
    requires k <= SECTION_COUNT
    decreases SECTION_COUNT - k
  {
    if k == SECTION_COUNT then []
    else [Label(k)] + Tuples(sections[k]) + SectionValues(sections, k + 1)
  }

  function Header(t: Table): Value {
    Tuple([Text(Ascii(t.schema)), Text(Ascii(t.name))])
  }

  function TableValues(tables: seq<Table>): seq<Value> {
    if tables == [] then []
    else [Header(tables[0])] + Tuples(tables[0].rows) + TableValues(tables[1..])
  }

  function CatalogValues(sections: Sections, tables: seq<Table>): seq<Value> {
    SectionValues(sections, 0) + TableValues(tables)
  }

  function Section(title: string, rows: seq<Row>): seq<Value> {
    [Text(Ascii(title))] + Tuples(rows)
  }

  /** The stream, with its nine labels in order. */
  lemma StreamSpelled(s: Sections, tables: seq<Table>)
    ensures CatalogValues(s, tables) ==
            Section("columns", s[0]) + (Section("table_constraints", s[1])
            + (Section("key_column_usage", s[2]) + (Section("referential_constraints", s[3])
            + (Section("check_constraints", s[4]) + (Section("indexes", s[5]) + (Section("sequences", s[6])
            + (Section("views", s[7]) + (Section("macros", s[8]) + TableValues(tables)))))))))
  {
    hide Ascii, Tuples, TableValues;
    var rest := TableValues(tables);
    SectionFirst(s, 8, rest);
    SectionFirst(s, 7, rest);
    SectionFirst(s, 6, rest);
    SectionFirst(s, 5, rest);
    SectionFirst(s, 4, rest);
    SectionFirst(s, 3, rest);
    SectionFirst(s, 2, rest);
    SectionFirst(s, 1, rest);
    SectionFirst(s, 0, rest);
    assert SectionValues(s, 9) + rest == rest;
  }

  lemma SectionFirst(s: Sections, k: nat, rest: seq<Value>)
    requires k < SECTION_COUNT
    ensures SectionValues(s, k) + rest == Section(LABELS[k], s[k]) + (SectionValues(s, k + 1) + rest)
  {
    hide Ascii, Tuples;
  }

  /** A table is a pair of texts, schema and name, and then its rows as tuples. */
  lemma TableSpelled(t: Table, rest: seq<Table>)
    ensures TableValues([t] + rest) ==
            [Tuple([Text(Ascii(t.schema)), Text(Ascii(t.name))])] + Tuples(t.rows) + TableValues(rest)
    ensures forall i :: 0 <= i < |t.rows| ==> Tuples(t.rows)[i] == Tuple(t.rows[i])
  {
    hide Ascii;
    assert ([t] + rest)[1..] == rest;
  }

  /** A letter, a digit or an underscore, by code point. */
  predicate WordCode(c: int) {
    65 <= c <= 90 || 97 <= c <= 122 || 48 <= c <= 57 || c == 95
  }

  /** One to sixty-four of these, not starting with a digit. */
  lemma SafeIdentifierSpelled(s: string)
    ensures IsSafeIdentifier(s) <==>
            1 <= |s| <= 64 && !(48 <= s[0] as int <= 57) && forall i :: 0 <= i < |s| ==> WordCode(s[i] as int)
  {
    if IsSafeIdentifier(s) || (1 <= |s| <= 64 && forall i :: 0 <= i < |s| ==> WordCode(s[i] as int)) {
      assert WordCode(s[0] as int);
    }
  }

  /** The digest, when every length fits its field. */
  function LogicalDigest(sha: Digester, sections: Sections, tables: seq<Table>): Option<Bytes> {
    var stream := FrameAll(sha, CatalogValues(sections, tables));
    if stream.None? then None else Some(sha(Ascii(STREAM_PREFIX) + stream.value))
  }

  predicate Digestible(sections: Sections, tables: seq<Table>) {
    && (forall k :: 0 <= k < SECTION_COUNT ==> |sections[k]| <= MAX_CATALOG_RECORDS)
    && (forall k :: 0 <= k < |tables| ==> IsSafeIdentifier(tables[k].schema) && IsSafeIdentifier(tables[k].name))
  }

  // ---- equal digests mean equal contents ----

  predicate AllRowsProper(rows: seq<Row>) {
    forall i :: 0 <= i < |rows| ==> AllProper(rows[i])
  }

  predicate ProperCatalog(sections: Sections, tables: seq<Table>) {
    && (forall k :: 0 <= k < SECTION_COUNT ==> AllRowsProper(sections[k]))
    && (forall k :: 0 <= k < |tables| ==> AllRowsProper(tables[k].rows))
  }

  /** Same tables in the same order, with the same row counts. */
  predicate SameTableList(a: seq<Table>, b: seq<Table>) {
    && |a| == |b|
    && (forall k :: 0 <= k < |a| ==> a[k].schema == b[k].schema && a[k].name == b[k].name && |a[k].rows| == |b[k].rows|)
  }

  lemma TuplesInjective(a: seq<Row>, b: seq<Row>)
    requires Tuples(a) == Tuples(b)
    ensures a == b
  {
    forall i | 0 <= i < |a| ensures a[i] == b[i] {
      assert Tuples(a)[i] == Tuples(b)[i];
    }
  }

  lemma ValuesProper(values: seq<Value>, more: seq<Value>)
    requires AllProper(values) && AllProper(more)
    ensures AllProper(values + more)
  {
  }

  lemma {:induction false} SectionsProper(sections: Sections, k: nat)
    requires k <= SECTION_COUNT && forall i :: 0 <= i < SECTION_COUNT ==> AllRowsProper(sections[i])
    ensures AllProper(SectionValues(sections, k))
    decreases SECTION_COUNT - k
  {
    if k < SECTION_COUNT {
      SectionsProper(sections, k + 1);
      assert AllRowsProper(sections[k]);
      ValuesProper([Label(k)], Tuples(sections[k]));
      ValuesProper([Label(k)] + Tuples(sections[k]), SectionValues(sections, k + 1));
    }
  }

  lemma {:induction false} TablesProper(tables: seq<Table>)
    requires forall k :: 0 <= k < |tables| ==> AllRowsProper(tables[k].rows)
    ensures AllProper(TableValues(tables))
  {
    if tables != [] {
      forall k | 0 <= k < |tables[1..]| ensures AllRowsProper(tables[1..][k].rows) {
        assert tables[1..][k] == tables[k + 1];
      }
      TablesProper(tables[1..]);
      assert AllRowsProper(tables[0].rows);
      assert AllProper([Text(Ascii(tables[0].schema)), Text(Ascii(tables[0].name))]);
      ValuesProper([Header(tables[0])], Tuples(tables[0].rows));
      ValuesProper([Header(tables[0])] + Tuples(tables[0].rows), TableValues(tables[1..]));
    }
  }

  lemma {:induction false} SameListSameLength(a: seq<Table>, b: seq<Table>)
    requires SameTableList(a, b)
    ensures |TableValues(a)| == |TableValues(b)|
  {
    if a != [] {
      SameListSameLength(a[1..], b[1..]);
    }
  }

  lemma {:induction false} TablesDiffer(a: seq<Table>, b: seq<Table>)
    requires SameTableList(a, b) && TableValues(a) == TableValues(b)
    ensures a == b
  {
    if a != [] {
      var x, y := TableValues(a[1..]), TableValues(b[1..]);
      Split([Header(a[0])] + Tuples(a[0].rows), x, [Header(b[0])] + Tuples(b[0].rows), y);
      Split([Header(a[0])], Tuples(a[0].rows), [Header(b[0])], Tuples(b[0].rows));
      TuplesInjective(a[0].rows, b[0].rows);
      TablesDiffer(a[1..], b[1..]);
      assert a == [a[0]] + a[1..] && b == [b[0]] + b[1..];
    }
  }

  /** A section ends at the next label, since rows are tuples and labels are text. */
  lemma SectionEnds(r: seq<Row>, x: seq<Value>, s: seq<Row>, y: seq<Value>)
    requires Tuples(r) + x == Tuples(s) + y
    requires x == [] || x[0].Text?
    requires y == [] || y[0].Text?
    ensures r == s && x == y
  {
    var u, v := Tuples(r), Tuples(s);
    var w := u + x;
    assert w == v + y;
    assert forall i :: 0 <= i < |r| ==> w[i] == u[i] && w[i].Tuple?;
    assert forall i :: 0 <= i < |s| ==> w[i] == v[i] && w[i].Tuple?;
    assert |r| < |w| ==> w[|r|] == x[0];
    assert |s| < |w| ==> w[|s|] == y[0];
    Split(u, x, v, y);
    TuplesInjective(r, s);
  }

  lemma {:induction false} SectionsDiffer(a: Sections, b: Sections, k: nat)
    requires k <= SECTION_COUNT && SectionValues(a, k) == SectionValues(b, k)
    ensures a[k..] == b[k..]
    decreases SECTION_COUNT - k
  {
    if k < SECTION_COUNT {
      var x, y := SectionValues(a, k + 1), SectionValues(b, k + 1);
      assert [Label(k)] + (Tuples(a[k]) + x) == SectionValues(a, k);
      assert [Label(k)] + (Tuples(b[k]) + y) == SectionValues(b, k);
      Split([Label(k)], Tuples(a[k]) + x, [Label(k)], Tuples(b[k]) + y);
      SectionEnds(a[k], x, b[k], y);
      SectionsDiffer(a, b, k + 1);
      assert a[k..] == [a[k]] + a[k + 1..] && b[k..] == [b[k]] + b[k + 1..];
    }
  }

  /** Two catalogs with the same table list and row counts and the same digest have the
      same metadata rows in every section and the same row sequence in every table. */
  lemma EqualDigestsEqualCatalogs(sha: Digester, sections: Sections, tables: seq<Table>, sections': Sections,
      tables': seq<Table>)
    requires Injective(sha) && ProperCatalog(sections, tables) && ProperCatalog(sections', tables')
    requires SameTableList(tables, tables')
    requires LogicalDigest(sha, sections, tables).Some?
    requires LogicalDigest(sha, sections, tables) == LogicalDigest(sha, sections', tables')
    ensures sections == sections' && tables == tables'
  {
    hide FrameAll, Ascii, SectionValues, TableValues;
    var v, v' := CatalogValues(sections, tables), CatalogValues(sections', tables');
    var p := Ascii(STREAM_PREFIX);
    assert p + FrameAll(sha, v).value == p + FrameAll(sha, v').value;
    Split(p, FrameAll(sha, v).value, p, FrameAll(sha, v').value);
    SectionsProper(sections, 0);
    SectionsProper(sections', 0);
    TablesProper(tables);
    TablesProper(tables');
    ValuesProper(SectionValues(sections, 0), TableValues(tables));
    ValuesProper(SectionValues(sections', 0), TableValues(tables'));
    SequencesDiffer(sha, v, v');
    SameListSameLength(tables, tables');
    Split(SectionValues(sections, 0), TableValues(tables), SectionValues(sections', 0), TableValues(tables'));
    SectionsDiffer(sections, sections', 0);
    TablesDiffer(tables, tables');
    assert sections[0..] == sections && sections'[0..] == sections';
  }

  /** Without the row counts the digest is ambiguous: a table header and a row of two
      strings are framed alike. Two tables without rows, or one table holding a row
      that spells the other's name, give one stream. */
  lemma CountsAreNeeded(sha: Digester, sections: Sections)
    ensures var two := [Table("main", "a", []), Table("main", "b", [])];
            var one := [Table("main", "a", [[Text(Ascii("main")), Text(Ascii("b"))]])];
            two != one && LogicalDigest(sha, sections, two) == LogicalDigest(sha, sections, one)
  {
    hide Ascii, FrameAll, SectionValues;
    var a, b := Table("main", "a", []), Table("main", "b", []);
    var row := [Text(Ascii("main")), Text(Ascii("b"))];
    var c := Table("main", "a", [row]);
    assert Header(a) == Header(c) && Header(b) == Tuple(row);
    assert [a, b][1..] == [b] && [b][1..] == [] && [c][1..] == [];
    assert TableValues([b]) == [Header(b)];
    assert TableValues([a, b]) == [Header(a), Header(b)];
    assert TableValues([c]) == [Header(c), Tuple(row)];
  }

  // ---- the loops ----

  /** `for row in rows: _fingerprint_value(digest, row)`. */
  method DigestRows(sha: Digester, digest: Digest, rows: seq<Row>) returns (ok: bool)
    modifies digest
    ensures ok <==> FrameAll(sha, Tuples(rows)).Some?
    ensures ok ==> digest.absorbed == old(digest.absorbed) + FrameAll(sha, Tuples(rows)).value
  {
    hide FrameValue;
    var values := Tuples(rows);
    for k := 0 to |rows|
      invariant FrameAll(sha, values[..k]).Some?
      invariant digest.absorbed == old(digest.absorbed) + FrameAll(sha, values[..k]).value
    {
      FrameAllSnoc(sha, values, k);
      ghost var before := FrameAll(sha, values[..k]).value;
      ok := digest.FingerprintValue(sha, Tuple(rows[k]));
      if !ok { return; }
      ghost var frame := FrameValue(sha, values[k]).value;
      assert (old(digest.absorbed) + before) + frame == old(digest.absorbed) + (before + frame);
    }
    assert values[..|rows|] == values;
    return true;
  }

  /** The cursor loop: fetch up to FETCH_SIZE rows until none are left. */
  method DigestCursor(sha: Digester, digest: Digest, rows: seq<Row>) returns (ok: bool)
    modifies digest
    ensures ok <==> FrameAll(sha, Tuples(rows)).Some?
    ensures ok ==> digest.absorbed == old(digest.absorbed) + FrameAll(sha, Tuples(rows)).value
  {
    hide FrameValue, FrameAll;
    var at := 0;
    JoinedUnits(FrameAll(sha, []));
    EmptyStream(sha);
    while true
      invariant at <= |rows|
      invariant FrameAll(sha, Tuples(rows[..at])).Some?
      invariant digest.absorbed == old(digest.absorbed) + FrameAll(sha, Tuples(rows[..at])).value
      decreases |rows| - at
    {
      var upTo := if at + FETCH_SIZE <= |rows| then at + FETCH_SIZE else |rows|;
      var batch := rows[at..upTo];
      if batch == [] {
        break;
      }
      ghost var before := FrameAll(sha, Tuples(rows[..at]));
      assert Tuples(rows[..upTo]) == Tuples(rows[..at]) + Tuples(batch);
      assert Tuples(rows) == Tuples(rows[..upTo]) + Tuples(rows[upTo..]);
      FrameAllAppend(sha, Tuples(rows[..at]), Tuples(batch));
      FrameAllAppend(sha, Tuples(rows[..upTo]), Tuples(rows[upTo..]));
      ok := DigestRows(sha, digest, batch);
      if !ok { return; }
      ghost var frames := FrameAll(sha, Tuples(batch)).value;
      assert (old(digest.absorbed) + before.value) + frames == old(digest.absorbed) + (before.value + frames);
      at := upTo;
    }
    assert rows[..at] == rows;
    return true;
  }

  lemma EmptyStream(sha: Digester)
    ensures FrameAll(sha, Tuples([])) == Some([])
  {
  }

  lemma SectionStep(sha: Digester, sections: Sections, k: nat)
    requires k < SECTION_COUNT
    ensures FrameAll(sha, SectionValues(sections, k)) ==
            Joined(FrameValue(sha, Label(k)),
                Joined(FrameAll(sha, Tuples(sections[k])), FrameAll(sha, SectionValues(sections, k + 1))))
  {
    hide FrameValue, Joined;
    var rest := SectionValues(sections, k + 1);
    assert SectionValues(sections, k) == [Label(k)] + (Tuples(sections[k]) + rest);
    FrameAllAppend(sha, [Label(k)], Tuples(sections[k]) + rest);
    FrameAllAppend(sha, Tuples(sections[k]), rest);
    FrameOne(sha, Label(k));
  }

  lemma TableStep(sha: Digester, tables: seq<Table>, k: nat)
    requires k < |tables|
    ensures FrameAll(sha, TableValues(tables[k..])) ==
            Joined(FrameValue(sha, Header(tables[k])),
                Joined(FrameAll(sha, Tuples(tables[k].rows)), FrameAll(sha, TableValues(tables[k + 1..]))))
  {
    hide FrameValue, Joined;
    var rest := TableValues(tables[k + 1..]);
    assert tables[k..][1..] == tables[k + 1..];
    assert TableValues(tables[k..]) == [Header(tables[k])] + (Tuples(tables[k].rows) + rest);
    FrameAllAppend(sha, [Header(tables[k])], Tuples(tables[k].rows) + rest);
    FrameAllAppend(sha, Tuples(tables[k].rows), rest);
    FrameOne(sha, Header(tables[k]));
  }

  /** What has been absorbed and what is still to come make up the whole stream. */
  ghost predicate OnTheWay(whole: Option<Bytes>, seed: Bytes, absorbed: Bytes, rest: Option<Bytes>) {
    && (whole.Some? <==> rest.Some?)
    && (whole.Some? ==> seed + whole.value == absorbed + rest.value)
  }

  lemma Advance(whole: Option<Bytes>, seed: Bytes, absorbed: Bytes, next: Option<Bytes>, rest: Option<Bytes>)
    requires OnTheWay(whole, seed, absorbed, Joined(next, rest))
    ensures next.None? ==> whole.None?
    ensures next.Some? ==> OnTheWay(whole, seed, absorbed + next.value, rest)
  {
    if next.Some? && rest.Some? {
      assert absorbed + (next.value + rest.value) == (absorbed + next.value) + rest.value;
    }
  }

  method DigestSections(sha: Digester, digest: Digest, sections: Sections, ghost seed: Bytes,
      ghost whole: Option<Bytes>, ghost after: Option<Bytes>)
    returns (failure: Option<CatalogError>)
    requires OnTheWay(whole, seed, digest.absorbed, Joined(FrameAll(sha, SectionValues(sections, 0)), after))
    modifies digest
    ensures failure.None? ==> OnTheWay(whole, seed, digest.absorbed, after)
    ensures failure.None? ==> forall k :: 0 <= k < SECTION_COUNT ==> |sections[k]| <= MAX_CATALOG_RECORDS
    ensures failure == Some(TooLarge) ==> exists k :: 0 <= k < SECTION_COUNT && |sections[k]| > MAX_CATALOG_RECORDS
    ensures failure.Some? ==> failure == Some(TooLarge) || (failure == Some(Overflow) && whole.None?)
  {
    hide FrameValue, FrameAll, Joined, OnTheWay, SectionValues;
    for k := 0 to SECTION_COUNT
      invariant OnTheWay(whole, seed, digest.absorbed, Joined(FrameAll(sha, SectionValues(sections, k)), after))
      invariant forall i :: 0 <= i < k ==> |sections[i]| <= MAX_CATALOG_RECORDS
    {
      ghost var heading, rows, rest := FrameValue(sha, Label(k)), FrameAll(sha, Tuples(sections[k])),
          FrameAll(sha, SectionValues(sections, k + 1));
      SectionStep(sha, sections, k);
      JoinedAssociates(heading, Joined(rows, rest), after);
      JoinedAssociates(rows, rest, after);
      Advance(whole, seed, digest.absorbed, heading, Joined(rows, Joined(rest, after)));
      var ok := digest.FingerprintValue(sha, Label(k));
      if !ok {
        return Some(Overflow);
      }
      var limit := MAX_CATALOG_RECORDS + 1;
      var fetched := if |sections[k]| <= limit then sections[k] else sections[k][..limit];
      if |fetched| > MAX_CATALOG_RECORDS {
        return Some(TooLarge);
      }
      Advance(whole, seed, digest.absorbed, rows, Joined(rest, after));
      ok := DigestRows(sha, digest, fetched);
      if !ok {
        return Some(Overflow);
      }
    }
    NoSectionsLeft(sha, sections);
    JoinedUnits(after);
    return None;
  }

  lemma NoSectionsLeft(sha: Digester, sections: Sections)
    ensures FrameAll(sha, SectionValues(sections, SECTION_COUNT)) == Some([])
  {
  }

  method DigestTables(sha: Digester, digest: Digest, tables: seq<Table>, ghost seed: Bytes, ghost whole: Option<Bytes>)
    returns (failure: Option<CatalogError>)
    requires OnTheWay(whole, seed, digest.absorbed, FrameAll(sha, TableValues(tables)))
    modifies digest
    ensures failure.None? ==> OnTheWay(whole, seed, digest.absorbed, Some([]))
    ensures failure.None? ==> forall k :: 0 <= k < |tables| ==>
            IsSafeIdentifier(tables[k].schema) && IsSafeIdentifier(tables[k].name)
    ensures failure == Some(Unsafe) ==>
            exists k :: 0 <= k < |tables| && !(IsSafeIdentifier(tables[k].schema) && IsSafeIdentifier(tables[k].name))
    ensures failure.Some? ==> failure == Some(Unsafe) || (failure == Some(Overflow) && whole.None?)
  {
    hide FrameValue, FrameAll, Joined, OnTheWay, TableValues, IsSafeIdentifier;
    assert tables[0..] == tables;
    for k := 0 to |tables|
      invariant OnTheWay(whole, seed, digest.absorbed, FrameAll(sha, TableValues(tables[k..])))
      invariant forall i :: 0 <= i < k ==> IsSafeIdentifier(tables[i].schema) && IsSafeIdentifier(tables[i].name)
    {
      ghost var header, rows, rest := FrameValue(sha, Header(tables[k])), FrameAll(sha, Tuples(tables[k].rows)),
          FrameAll(sha, TableValues(tables[k + 1..]));
      if !IsSafeIdentifier(tables[k].schema) || !IsSafeIdentifier(tables[k].name) {
        return Some(Unsafe);
      }
      TableStep(sha, tables, k);
      Advance(whole, seed, digest.absorbed, header, Joined(rows, rest));
      var ok := digest.FingerprintValue(sha, Header(tables[k]));
      if !ok {
        return Some(Overflow);
      }
      Advance(whole, seed, digest.absorbed, rows, rest);
      ok := DigestCursor(sha, digest, tables[k].rows);
      if !ok {
        return Some(Overflow);
      }
    }
    assert tables[|tables|..] == [];
    NoTablesLeft(sha);
    return None;
  }

  lemma NoTablesLeft(sha: Digester)
    ensures FrameAll(sha, TableValues([])) == Some([])
  {
  }

  /** `_logical_catalog_sha256`. It succeeds exactly on catalogs within the limits
      whose lengths fit, and then returns the digest of the whole stream. */
  method LogicalCatalogSha256(sha: Digester, sections: Sections, tables: seq<Table>)
    returns (r: Result<Bytes, CatalogError>)
    ensures r.Ok? <==> Digestible(sections, tables) && LogicalDigest(sha, sections, tables).Some?
    ensures r.Ok? ==> r.value == LogicalDigest(sha, sections, tables).value
  {
    hide FrameValue, FrameAll, Joined, SectionValues, TableValues, IsSafeIdentifier, Ascii;
    var seed := Ascii(STREAM_PREFIX);
    var digest := new Digest(seed);
    ghost var whole := FrameAll(sha, CatalogValues(sections, tables));
    ghost var after := FrameAll(sha, TableValues(tables));
    FrameAllAppend(sha, SectionValues(sections, 0), TableValues(tables));
    var failure := DigestSections(sha, digest, sections, seed, whole, after);
    if failure.Some? {
      return Raise(failure.value);
    }
    failure := DigestTables(sha, digest, tables, seed, whole);
    if failure.Some? {
      return Raise(failure.value);
    }
    assert seed + whole.value == digest.absorbed + [] == digest.absorbed;
    return Ok(sha(digest.absorbed));
  }
}
