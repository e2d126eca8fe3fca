/** What backup and restore give together
    (tools/local-stack/local_stack.py:2572-3107). */
module BackupRoundTrip {
  import opened Basics
  import opened BackupManifest
  import opened BackupVerify
  import opened Restore
  import opened Backup

  /** Same rows in every metadata section and base table, same versions and engine. */
  ghost predicate SameContent(a: Content, b: Content) {
    && a.sections == b.sections && BaseTables(a.relations) == BaseTables(b.relations)
    && a.local == b.local && a.assurance == b.assurance && a.engine == b.engine
  }

  /** Every value DuckDB returns is one of its own types. */
  ghost predicate AlwaysProper(p: Platform) {
    forall b, w :: p.logical(b, w).Some? ==> ProperContent(p.logical(b, w).value)
  }

  /** Whatever one manifest describes is one content. */
  lemma OneManifestOneContent(p: Platform, m: Manifest, a: Bytes, b: Bytes)
    requires CollisionFree(p) && AlwaysProper(p)
    requires OpenMetadata(p, a, None).Some? && Describes(m, OpenMetadata(p, a, None).value)
    requires OpenMetadata(p, b, None).Some? && Describes(m, OpenMetadata(p, b, None).value)
    ensures SameContent(p.logical(a, None).value, p.logical(b, None).value)
  {
    hide MetadataOf, Describes, ProperContent;
    DescribedMetadataEqual(m, OpenMetadata(p, a, None).value, OpenMetadata(p, b, None).value);
    EqualMetadataEqualContent(p, p.logical(a, None).value, p.logical(b, None).value);
  }

  lemma SameHashSameBytes(p: Platform, m: Manifest, a: Bytes, b: Bytes)
    requires CollisionFree(p) && HasBytes(p, m, a) && HasBytes(p, m, b)
    ensures a == b
  {
    EqualHashesEqualBytes(p, a, b);
  }

  // ---- a log without a database ----

  /** Such a log is neither refused nor removed: with no database, a stray log, and
      everything else in order, the restore goes through and leaves the restored file
      beside a log that is not its own. */
  method RestoreBesideOrphanLog(p: Platform, checkpoint: (Bytes, Option<Bytes>, nat) -> CheckpointResult,
      v: BackupView, expected: string, log: Bytes)
    returns (target: StateDirectory, r: Result<Restoration, Code>)
    requires Faithful(p, checkpoint) && Restorable(p, v, expected, Store(None, Some(log), None))
    ensures r.Ok? && r.value.changed && target.store.wal == Some(log)
    ensures target.p == p && target.store.database.Some? && target.store.database.value.bytes == v.database
    ensures Logical(p, target.store) == p.logical(v.database, Some(log))
  {
    hide LoadAndVerify, HasBytes, Describes, OpenMetadata, Logical;
    target := new StateDirectory(Store(None, Some(log), None), p, checkpoint, _ => v,
        (t: nat, at: nat) => Piece(v.database, at), _ => true, false, false);
    assert target.Quiet(v);
    ghost var pinned;
    r, pinned := target.Restore(expected);
  }

  /** The same libraries, except that this file beside this log shows `shown`. */
  function Showing(p: Platform, database: Bytes, log: Bytes, shown: Option<Content>): Platform {
    p.(logical := (b, w) => if b == database && w == Some(log) then shown else p.logical(b, w))
  }

  /** Verification never looks at a file beside a log. */
  lemma VerificationIgnoresLogs(p: Platform, v: BackupView, log: Bytes, shown: Option<Content>)
    ensures LoadAndVerify(Showing(p, v.database, log, shown), v) == LoadAndVerify(p, v)
  {
    hide HeadValid, CatalogWithinLimits, TablesValid, Describes, Summarizable, Readable;
    var p' := Showing(p, v.database, log, shown);
    assert p'.logical(v.database, None) == p.logical(v.database, None);
    assert OpenMetadata(p', v.database, None) == OpenMetadata(p, v.database, None);
  }

  /** So a reader that applies the log sees whatever the log makes of the file: for
      every backup, every log and every content there are libraries under which the
      restore succeeds and the database shows that content. */
  method OrphanLogMisleads(p: Platform, v: BackupView, expected: string, log: Bytes, shown: Option<Content>)
    returns (target: StateDirectory, r: Result<Restoration, Code>)
    requires Restorable(p, v, expected, Store(None, Some(log), None))
    ensures r.Ok? && target.store.database.Some? && target.store.database.value.bytes == v.database
    ensures target.p == Showing(p, v.database, log, shown)
    ensures Logical(Showing(p, v.database, log, shown), target.store) == shown
  {
    hide LoadAndVerify, Logical;
    VerificationIgnoresLogs(p, v, log, shown);
    target, r := RestoreBesideOrphanLog(Showing(p, v.database, log, shown),
        (b: Bytes, w: Option<Bytes>, t: nat) => Locked, v, expected, log);
  }

  // ---- backup, restore, restore again ----

  /** A backup is taken, restored somewhere else, and restored there again. The restored
      database has exactly the content of the source; the second restore changes nothing. */
  method RoundTrip(area: BackupArea, before: Store, backupId: string, createdAt: string, marker: string,
                   ghost relations: seq<Relation>, ghost meta: Metadata, ghost copied: Bytes)
    returns (target: StateDirectory, first: Result<Restoration, Code>, second: Result<Restoration, Code>)
    requires Faithful(area.p, area.checkpoint) && area.staging.None? && area.changes == [] && area.destination.None?
    requires area.Promising(meta, copied) && Publishable(area.p, relations, meta, backupId, createdAt, marker, copied)
    requires CollisionFree(area.p) && AlwaysProper(area.p) && (forall b :: area.p.formats.isSha(Sha256(area.p, b)))
    requires before.temp.None? && (before.database.None? ==> before.wal.None?)
    requires before.database.Some? ==>
            forall t :: LeavesNoLog(before, area.checkpoint(before.database.value.bytes, before.wal, t))
    requires forall b, t :: area.p.logical(b, None).Some? ==> area.checkpoint(b, None, t) == Folded(b, None)
    modifies area
    ensures first.Ok? && second.Ok? && !second.value.changed
    ensures target.store.database.Some? && target.store.wal.None? && target.store.temp.None?
    ensures area.destination.Some? && target.store.database.value.bytes == BytesOf(area.destination.value, DatabaseFile)
    ensures Logical(area.p, target.store).Some? && area.database.Some? && Logical(area.p, area.Workspace()).Some?
    ensures SameContent(Logical(area.p, target.store).value, Logical(area.p, area.Workspace()).value)
    ensures old(Logical(area.p, area.Workspace())) == Logical(area.p, area.Workspace())
  {
    hide LoadAndVerify, HasBytes, Describes, MetadataOf, Publishable, Sha256, SameContent, CollisionFree,
         AlwaysProper;
    ghost var source;
    var taken: Result<Receipt, Code>;
    taken, source := area.Backup(backupId, createdAt, marker);
    var v := ViewOf(area.destination.value);
    var expected := taken.value.manifestSha256;
    VerifiedFacts(area.p, v);
    target := new StateDirectory(before, area.p, area.checkpoint, _ => v, (t: nat, at: nat) => Piece(v.database, at),
        _ => true, false, false);
    assert target.Quiet(v) && Restorable(area.p, v, expected, before) && target.CanFold(before);
    ghost var pinned;
    first, pinned := target.Restore(expected);
    target.VerifiedThis(v, expected, first.value.manifest);
    ghost var m := first.value.manifest;
    SameHashSameBytes(area.p, m, target.store.database.value.bytes, v.database);
    OneManifestOneContent(area.p, m, v.database, area.database.value.bytes);
    ghost var middle := target.store;
    assert Restorable(area.p, v, expected, middle) && target.CanFold(middle) && target.Settled(middle);
    second, pinned := target.Restore(expected);
  }
}
