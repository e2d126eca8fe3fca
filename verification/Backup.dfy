/** Taking a cold backup: checkpoint, copy, describe, verify, publish without
    replacing, and cleaning up a partial staging directory
    (tools/local-stack/local_stack.py:1383-1430, 2572-2860). */
module Backup {
  import opened Basics
  import opened CatalogDigest
  import opened BackupManifest
  import opened BackupVerify
  import opened Restore

  datatype ChildName = DatabaseFile | ManifestFile | LogFile | Stray(text: string)
  datatype Folder = Folder(id: nat, children: map<ChildName, FileState>)

  /** What COPY FROM DATABASE, CHECKPOINT and DETACH leave in the staging directory. */
  datatype CopyOutcome = CopyOutcome(database: Option<Bytes>, log: Option<Bytes>, failed: bool)
  datatype Receipt = Receipt(manifest: Manifest, manifestSha256: string)

  function BytesOf(f: Folder, n: ChildName): Bytes {
    if n in f.children then f.children[n].bytes else []
  }

  function ViewOf(f: Folder): BackupView {
    BackupView(f.children.Keys == {DatabaseFile, ManifestFile}, BytesOf(f, ManifestFile), BytesOf(f, DatabaseFile),
        LogFile in f.children)
  }

  /** A published destination holds a backup that verifies. */
  ghost predicate Sound(p: Platform, f: Folder) {
    LoadAndVerify(p, ViewOf(f)).Ok?
  }

  /** Which takes exactly the two files, of which one lists the other. */
  lemma SoundMeans(p: Platform, f: Folder)
    requires Sound(p, f)
    ensures f.children.Keys == {DatabaseFile, ManifestFile}
    ensures var m := p.decode(f.children[ManifestFile].bytes);
            && m.Some? && Accepted(p.formats, m.value) && p.encode(m.value) == f.children[ManifestFile].bytes
            && HasBytes(p, m.value, f.children[DatabaseFile].bytes)
  {
    hide HeadValid, CatalogWithinLimits, TablesValid, OpenMetadata, Describes, Sha256;
  }

  // ---- what happens at the destination path ----

  /** One change of what the path shows, made by this run or by somebody else. */
  datatype Change = Change(ours: bool, before: Option<Folder>, after: Option<Folder>)

  ghost function ShownAfter(start: Option<Folder>, changes: seq<Change>): Option<Folder> {
    if changes == [] then start else changes[|changes| - 1].after
  }

  /** The changes follow one another, from what the path showed at the start. */
  ghost predicate Connected(start: Option<Folder>, changes: seq<Change>) {
    forall i :: 0 <= i < |changes| ==> changes[i].before == ShownAfter(start, changes[..i])
  }

  /** This run has only ever put a backup that verifies where nothing was. */
  ghost predicate NothingReplaced(p: Platform, changes: seq<Change>) {
    forall i :: 0 <= i < |changes| && changes[i].ours ==>
      changes[i].before.None? && changes[i].after.Some? && Sound(p, changes[i].after.value)
  }

  ghost predicate NoneOurs(changes: seq<Change>) {
    forall i :: 0 <= i < |changes| ==> !changes[i].ours
  }

  /** The only change this run has made is the i-th, which put `folder` where nothing was. */
  ghost predicate OursAt(changes: seq<Change>, i: int, folder: Option<Folder>) {
    0 <= i < |changes| && changes[i] == Change(true, None, folder) && forall j ::
        0 <= j < |changes| && changes[j].ours ==> j == i
  }

  lemma NoChangesYet(p: Platform, start: Option<Folder>)
    ensures Connected(start, []) && NothingReplaced(p, []) && NoneOurs([]) && ShownAfter(start, []) == start
  {
  }

  lemma ChangeFollows(p: Platform, start: Option<Folder>, changes: seq<Change>, c: Change)
    requires Connected(start, changes) && NothingReplaced(p, changes) && c.before == ShownAfter(start, changes)
    requires c.ours ==> c.before.None? && c.after.Some? && Sound(p, c.after.value)
    ensures Connected(start, changes + [c]) && NothingReplaced(p, changes + [c])
    ensures ShownAfter(start, changes + [c]) == c.after
  {
    hide Sound;
    forall i | 0 <= i < |changes| + 1
      ensures (changes + [c])[i].before == ShownAfter(start, (changes + [c])[..i])
    {
      assert i == |changes| ==> (changes + [c])[..i] == changes;
      assert i < |changes| ==> (changes + [c])[..i] == changes[..i];
    }
  }

  /** Every child of the directory is one this run recorded, and still the same file. */
  predicate AllRecorded(f: Folder, recorded: map<ChildName, nat>) {
    forall n :: n in f.children ==> n in recorded && recorded[n] == f.children[n].ino
  }

  /** The directory this run made, with nothing in it that this run did not put there. */
  predicate Ours(f: Folder, id: nat, recorded: map<ChildName, nat>) {
    f.id == id && AllRecorded(f, recorded)
  }

  /** Everything a backup of a sorted catalog with these contents needs to go right. */
  ghost predicate Publishable(p: Platform, relations: seq<Relation>, meta: Metadata, backupId: string,
      createdAt: string, marker: string, copied: Bytes) {
    && Producible(p, relations, meta, backupId, createdAt, marker, copied)
    && copied != [] && Ascending(RelationKeys(relations))
    && var m := BuildManifest(meta, backupId, createdAt, marker, |copied|, Sha256(p, copied));
       p.decode(p.encode(m)) == Some(m) && 1 <= |p.encode(m)| <= MAX_MANIFEST_BYTES
  }

  lemma PublishableVerifies(p: Platform, relations: seq<Relation>, meta: Metadata, backupId: string,
      createdAt: string, marker: string, copied: Bytes)
    requires Publishable(p, relations, meta, backupId, createdAt, marker, copied)
    ensures var m := BuildManifest(meta, backupId, createdAt, marker, |copied|, Sha256(p, copied));
            LoadAndVerify(p, BackupView(true, p.encode(m), copied, false)).Ok? && |p.encode(m)| <= MAX_MANIFEST_BYTES
                && |copied| <= MAX_DATABASE_BYTES
    ensures OpenMetadata(p, copied, None) == Some(meta)
  {
    hide LoadAndVerify, OpenMetadata, Ascending;
    TableKeysInherit(relations);
    BuiltBackupVerifies(p, relations, meta, backupId, createdAt, marker, copied);
  }

  /** Parsing gives back what was printed. */
  ghost predicate Canonical(p: Platform) {
    forall m :: p.decode(p.encode(m)) == Some(m)
  }

  /** The manifest carries this run's identifier, time and workspace marker. */
  predicate Labelled(m: Manifest, backupId: string, createdAt: string, marker: string) {
    m.backupId == backupId && m.createdAt == createdAt && m.marker == marker
  }

  lemma LabelsSurvive(p: Platform, v: BackupView, meta: Metadata, backupId: string, createdAt: string, marker: string,
                      bytes: int, sha256: string)
    requires LoadAndVerify(p, v).Ok?
    requires v.manifest == p.encode(BuildManifest(meta, backupId, createdAt, marker, bytes, sha256))
    ensures Canonical(p) ==> Labelled(LoadAndVerify(p, v).value.manifest, backupId, createdAt, marker)
  {
    hide LoadAndVerify, OpenMetadata, Describes, Accepted;
    VerifiesIff(p, v, LoadAndVerify(p, v).value.manifest);
    BuiltSpelled(meta, backupId, createdAt, marker, bytes, sha256);
  }

  /** What a manifest that describes `c` says, each item in its place. */
  ghost predicate Says(p: Platform, m: Manifest, c: Content) {
    && c.local == Version(m.versions.local)
    && c.assurance == (if m.versions.assurance.Some? then Version(m.versions.assurance.value) else NoTable)
    && c.engine == m.engine
    && m.catalog.tables == Counts(BaseTables(c.relations)) && m.catalog.viewCount == Views(c.relations)
    && LogicalDigest(p.digest, c.sections, BaseTables(c.relations)).Some?
    && m.catalog.logicalSha256 == p.hex(LogicalDigest(p.digest, c.sections, BaseTables(c.relations)).value)
  }

  lemma DescribedSays(p: Platform, m: Manifest, bytes: Bytes)
    requires OpenMetadata(p, bytes, None).Some? && Describes(m, OpenMetadata(p, bytes, None).value)
    ensures p.logical(bytes, None).Some? && Says(p, m, p.logical(bytes, None).value)
  {
    hide LogicalDigest, Summarizable, BaseTables, Counts, Views, MetadataOf;
    MetadataSpelled(p, p.logical(bytes, None).value);
  }

  class BackupArea {
    var database: Option<FileState>
    var wal: Option<Bytes>
    var staging: Option<Folder>
    var destination: Option<Folder>
    var clock: nat
    ghost var faults: nat            // calls that failed so far
    ghost var changes: seq<Change>   // what has happened at the destination path
    const p: Platform
    const checkpoint: (Bytes, Option<Bytes>, nat) -> CheckpointResult
    const copy: nat -> CopyOutcome
    const reply: nat -> bool
    const spill: bool
    const others: (nat, Option<Folder>) -> Option<Folder>   // what somebody else makes of the destination

    constructor (database: Option<FileState>, wal: Option<Bytes>, destination: Option<Folder>, p: Platform,
                 checkpoint: (Bytes, Option<Bytes>, nat) -> CheckpointResult, copy: nat -> CopyOutcome,
                 reply: nat -> bool, spill: bool, others: (nat, Option<Folder>) -> Option<Folder>)
      ensures this.database == database && this.wal == wal && staging == None && this.destination == destination
      ensures changes == [] && faults == 0 && this.p == p && this.checkpoint == checkpoint && this.copy == copy
      ensures this.reply == reply && this.spill == spill && this.others == others
    {
      this.database, this.wal, staging, this.destination := database, wal, None, destination;
      clock, changes, faults := 0, [], 0;
      this.p, this.checkpoint, this.copy := p, checkpoint, copy;
      this.reply, this.spill, this.others := reply, spill, others;
    }

    /** Every change from what the path showed at the start to what it shows now is on
        record, and nothing has been replaced. */
    ghost predicate PathSafe(start: Option<Folder>)
      reads this
    {
      Connected(start, changes) && ShownAfter(start, changes) == destination && NothingReplaced(p, changes)
    }

    function Workspace(): Store
      reads this
    {
      Store(database, wal, None)
    }

    method Attempt() returns (ok: bool)
      modifies this`clock, this`faults
      ensures ok == reply(old(clock)) && faults == old(faults) + (if ok then 0 else 1)
    {
      ok := reply(clock);
      clock := clock + 1;
      faults := faults + (if ok then 0 else 1);
    }

    /** Time passes, in which somebody else may put anything at the destination, edit it or
        take it away. */
    method OthersAct(ghost start: Option<Folder>)
      requires PathSafe(start)
      modifies this`destination, this`changes, this`clock, this`faults
      ensures PathSafe(start) && destination == others(old(clock), old(destination))
      ensures NoneOurs(old(changes)) ==> NoneOurs(changes)
      ensures forall i, f :: OursAt(old(changes), i, f) ==> OursAt(changes, i, f)
      ensures faults == old(faults)
    {
      ghost var c := Change(false, destination, others(clock, destination));
      ChangeFollows(p, start, changes, c);
      destination := others(clock, destination);
      changes := changes + [c];
      clock := clock + 1;
    }

    // ---- `_cleanup_partial_backup` ----

    /** Checks every child before it deletes any; on a stranger it deletes nothing. */
    method CleanupPartial(recorded: map<ChildName, nat>, id: nat) returns (ok: bool)
      modifies this`staging, this`clock, this`faults
      ensures ok ==> staging.None?
      ensures !ok ==> staging.Some? && old(staging).Some? && staging.value.id == old(staging).value.id
      ensures !ok ==> forall n :: n in staging.value.children ==>
              n in old(staging).value.children && staging.value.children[n] == old(staging).value.children[n]
      ensures old(staging).Some? && !Ours(old(staging).value, id, recorded) ==> !ok && staging == old(staging)
      ensures ok ==> faults == old(faults)
      ensures old(staging).None? ==> ok
      ensures old(staging).Some? && Ours(old(staging).value, id, recorded) && !ok ==> faults > old(faults)
      ensures faults >= old(faults) && ((forall t :: reply(t)) ==> faults == old(faults))
    {
      if staging.None? {
        return true;
      }
      var listed := Attempt();
      if !listed || staging.value.id != id || !(staging.value.children.Keys <= recorded.Keys)
          || !AllRecorded(staging.value, recorded) {
        return false;
      }
      var names := staging.value.children.Keys;
      while names != {}
        invariant staging.Some? && staging.value.id == id && staging.value.children.Keys == names
        invariant faults == old(faults)
        invariant forall n :: n in names ==>
                n in old(staging).value.children && staging.value.children[n] == old(staging).value.children[n]
        decreases |names|
      {
        var n :| n in names;
        var unlinked := Attempt();
        if !unlinked {
          return false;
        }
        staging := Some(staging.value.(children := staging.value.children - {n}));
        names := names - {n};
      }
      var removed := Attempt();
      if !removed {
        return false;
      }
      staging := None;
      return true;
    }

    // ---- the work in the staging directory ----

    /** A copy that leaves a log and no database. */
    ghost predicate LogAlone() {
      exists t :: copy(t).log.Some? && copy(t).database.None?
    }

    /** Nothing fails, but the checkpoint leaves a log beside the workspace database. */
    ghost predicate LeavesLog()
      reads this
    {
      && Unhindered() && !spill && database.Some? && |database.value.bytes| <= MAX_DATABASE_BYTES
      && (forall t :: !copy(t).failed && copy(t).database.Some?)
      && (forall t :: var r := checkpoint(database.value.bytes, wal, t);
                      r.Folded? && r.wal.Some? && OpenMetadata(p, r.bytes, r.wal).Some?)
    }

    /** Folds the log of the workspace database. */
    method CheckpointSource() returns (failure: Option<Code>)
      requires database.Some? && Faithful(p, checkpoint)
      modifies this`database, this`wal, this`clock, this`faults
      ensures database.Some? && Prior(p, old(Workspace()), Workspace())
      ensures failure.None? ==>
              checkpoint(old(database).value.bytes, old(wal), old(clock)) == Folded(database.value.bytes, wal)
      ensures failure.None? <==> checkpoint(old(database).value.bytes, old(wal), old(clock)).Folded?
      ensures failure.Some? ==> failure.value in {WorkspaceBusy, BackupFailed}
      ensures old(Logical(p, Workspace())).None? ==> failure.Some?
      ensures checkpoint(old(database).value.bytes, old(wal), old(clock)).Locked? ==> failure == Some(WorkspaceBusy)
      ensures checkpoint(old(database).value.bytes, old(wal), old(clock)).Unreadable? ==> failure == Some(BackupFailed)
      ensures faults == old(faults)
    {
      var result := checkpoint(database.value.bytes, wal, clock);
      clock := clock + 1;
      match result {
        case Locked => return Some(WorkspaceBusy);
        case Unreadable => return Some(BackupFailed);
        case Folded(bytes, log) =>
          database, wal := Some(FileState(database.value.ino, bytes)), log;
          return None;
      }
    }

    /** Copies the open database into the staging directory; nothing is recorded yet. */
    method CopyOut() returns (ok: bool)
      requires staging.Some? && staging.value.children == map[]
      modifies this`staging, this`clock, this`faults
      ensures staging.Some? && staging.value.id == old(staging).value.id
      ensures staging.value.children.Keys <= {DatabaseFile, LogFile}
      ensures ok <==> !copy(old(clock)).failed
      ensures faults == old(faults) + (if ok then 0 else 1)
      ensures DatabaseFile in staging.value.children <==> copy(old(clock)).database.Some?
      ensures LogFile in staging.value.children <==> copy(old(clock)).log.Some?
      ensures DatabaseFile in staging.value.children ==>
              staging.value.children[DatabaseFile].bytes == copy(old(clock)).database.value
    {
      var outcome := copy(clock);
      clock := clock + 1;
      var children: map<ChildName, FileState> := map[];
      if outcome.database.Some? {
        children := children[DatabaseFile := FileState(clock, outcome.database.value)];
      }
      if outcome.log.Some? {
        children := children[LogFile := FileState(clock + 1, outcome.log.value)];
      }
      staging := Some(staging.value.(children := children));
      faults := faults + (if outcome.failed then 1 else 0);
      return !outcome.failed;
    }

    /** Records the copied database; a log beside it is recorded too, and refused. */
    method Capture() returns (ok: bool, recorded: map<ChildName, nat>)
      requires staging.Some? && staging.value.children.Keys <= {DatabaseFile, LogFile}
      modifies this`clock, this`faults
      ensures ok ==>
              staging.value.children.Keys == {DatabaseFile} && recorded.Keys == {DatabaseFile}
              && AllRecorded(staging.value, recorded)
      ensures DatabaseFile in staging.value.children && faults == old(faults) ==> AllRecorded(staging.value, recorded)
      ensures ok ==> faults == old(faults)
      ensures faults >= old(faults) && ((forall t :: reply(t)) ==> faults == old(faults))
      ensures (forall t :: reply(t)) && staging.value.children.Keys == {DatabaseFile} ==> ok
    {
      recorded := map[];
      var captured := Attempt();
      if !captured || DatabaseFile !in staging.value.children {
        return false, recorded;
      }
      recorded := recorded[DatabaseFile := staging.value.children[DatabaseFile].ino];
      if LogFile in staging.value.children {
        captured := Attempt();
        if captured {
          recorded := recorded[LogFile := staging.value.children[LogFile].ino];
        }
        return false, recorded;
      }
      return true, recorded;
    }

    /** Writes the manifest file; what a failed write leaves is removed again, or stays unrecorded. */
    method WriteManifest(payload: Bytes, recorded: map<ChildName, nat>)
      returns (ok: bool, recorded': map<ChildName, nat>)
      requires staging.Some? && AllRecorded(staging.value, recorded) && ManifestFile !in staging.value.children
      modifies this`staging, this`clock, this`faults
      ensures staging.Some? && staging.value.id == old(staging).value.id
      ensures ok ==> AllRecorded(staging.value, recorded')
      ensures ok ==> ManifestFile in staging.value.children && staging.value.children[ManifestFile].bytes == payload
      ensures ok ==>
              var added := staging.value.children[ManifestFile];
              staging.value.children == old(staging).value.children[ManifestFile := added]
      ensures !ok ==> recorded' == recorded && faults > old(faults)
      ensures faults == old(faults) + 1 ==> staging == old(staging)
      ensures ok ==> faults == old(faults)
      ensures (forall t :: reply(t)) ==> ok
    {
      recorded' := recorded;
      var created := Attempt();
      if !created {
        return false, recorded;
      }
      var ino := clock;
      var before := staging.value;
      staging := Some(before.(children := before.children[ManifestFile := FileState(ino, payload)]));
      var synced := Attempt();
      if synced {
        return true, recorded[ManifestFile := ino];
      }
      var identified := Attempt();
      var unlinked := Attempt();
      if identified && unlinked {
        staging := Some(before);
      }
      return false, recorded;
    }

    /** No call fails and nobody touches the destination. */
    ghost predicate Unhindered() {
      (forall t :: reply(t)) && (forall t, f :: others(t, f) == f)
    }

    /** Moreover the checkpoint leaves no log, and the copy is `copied`. */
    ghost predicate Promising(meta: Metadata, copied: Bytes)
      reads this
    {
      && Unhindered() && !spill && database.Some? && |database.value.bytes| <= MAX_DATABASE_BYTES
      && (forall t :: copy(t) == CopyOutcome(Some(copied), None, false))
      && (forall t :: var r := checkpoint(database.value.bytes, wal, t);
                      r.Folded? && r.wal.None? && OpenMetadata(p, r.bytes, None) == Some(meta))
    }

    /** Everything between creating the staging directory and publishing it. */
    method Stage(backupId: string, createdAt: string, marker: string)
      returns (r: Result<Receipt, Code>, recorded: map<ChildName, nat>, ghost meta: Option<Metadata>)
      requires database.Some? && Faithful(p, checkpoint) && staging.Some? && staging.value.children == map[]
      modifies this`staging, this`clock, this`database, this`wal, this`faults
      ensures staging.Some? && staging.value.id == old(staging).value.id
      ensures database.Some? && Prior(p, old(Workspace()), Workspace())
      ensures r.Ok? ==>
              AllRecorded(staging.value, recorded)
              && LoadAndVerify(p, ViewOf(staging.value)) == Ok(Verified(r.value.manifest, r.value.manifestSha256))
      ensures r.Ok? ==>
              meta.Some? && OpenMetadata(p, database.value.bytes, None) == meta
              && OpenMetadata(p, BytesOf(staging.value, DatabaseFile), None) == meta
      ensures r.Ok? ==> Describes(r.value.manifest, meta.value) && wal.None?
      ensures r.Ok? ==> staging.value.children.Keys == {DatabaseFile, ManifestFile} && !spill && faults == old(faults)
      ensures r.Ok? && Canonical(p) ==> Labelled(r.value.manifest, backupId, createdAt, marker)
      ensures old(Logical(p, Workspace())).None? ==> r.Raise?
      ensures faults >= old(faults)
      ensures faults == old(faults) && !AllRecorded(staging.value, recorded) ==> wal.Some? || spill || LogAlone()
      ensures old(LeavesLog()) ==> r.Raise? && !AllRecorded(staging.value, recorded)
      ensures forall relations, meta0, copied ::
          old(Promising(meta0, copied)) && Publishable(p, relations, meta0, backupId, createdAt, marker, copied) ==>
          r.Ok?
    {
      hide LoadAndVerify, OpenMetadata, Describes, Logical, Faithful, Publishable, Sha256, BuildManifest, Canonical,
           Labelled;
      forall relations, meta0, copied | Publishable(p, relations, meta0, backupId, createdAt, marker, copied)
        ensures var payload := p.encode(BuildManifest(meta0, backupId, createdAt, marker, |copied|, Sha256(p, copied)));
                LoadAndVerify(p, BackupView(true, payload, copied, false)).Ok? && |payload| <= MAX_MANIFEST_BYTES
                    && |copied| <= MAX_DATABASE_BYTES
        ensures OpenMetadata(p, copied, None) == Some(meta0)
      {
        PublishableVerifies(p, relations, meta0, backupId, createdAt, marker, copied);
      }
      var failure, source: Option<Metadata>;
      failure, recorded, source := CopyDatabase();
      meta := source;
      if failure.Some? {
        return Raise(failure.value), recorded, meta;
      }
      r, recorded := Seal(source.value, backupId, createdAt, marker, recorded);
      if r.Ok? {
        VerifiedFacts(p, ViewOf(staging.value));
      }
      return r, recorded, meta;
    }

    /** From the checkpoint to a recorded copy that shows what the open database showed. */
    method CopyDatabase() returns (failure: Option<Code>, recorded: map<ChildName, nat>, meta: Option<Metadata>)
      requires database.Some? && Faithful(p, checkpoint) && staging.Some? && staging.value.children == map[]
      modifies this`staging, this`clock, this`database, this`wal, this`faults
      ensures staging.Some? && staging.value.id == old(staging).value.id
      ensures database.Some? && Prior(p, old(Workspace()), Workspace())
      ensures failure.None? ==>
              && AllRecorded(staging.value, recorded) && staging.value.children.Keys == {DatabaseFile}
              && wal.None? && !spill && faults == old(faults)
      ensures failure.None? ==>
              meta.Some? && OpenMetadata(p, database.value.bytes, None) == meta
              && OpenMetadata(p, BytesOf(staging.value, DatabaseFile), None) == meta
      ensures old(Logical(p, Workspace())).None? ==> failure.Some?
      ensures faults >= old(faults)
      ensures faults == old(faults) && !AllRecorded(staging.value, recorded) ==> wal.Some? || spill || LogAlone()
      ensures old(LeavesLog()) ==> failure.Some? && !AllRecorded(staging.value, recorded)
      ensures forall meta0, copied ::
          old(Promising(meta0, copied)) && OpenMetadata(p, copied, None) == Some(meta0) ==>
          failure.None? && meta == Some(meta0) && BytesOf(staging.value, DatabaseFile) == copied
    {
      hide OpenMetadata, Logical, Faithful;
      recorded, meta := map[], None;
      var prepared := Attempt();
      if !prepared {
        return Some(BackupFailed), recorded, meta;
      }
      failure := CheckpointSource();
      if failure.Some? {
        return failure, recorded, meta;
      }
      meta := ReadMetadata(p, database.value.bytes, wal);
      if meta.None? {
        return Some(BackupFailed), recorded, meta;
      }
      var copiedOut := CopyOut();
      if !copiedOut {
        return Some(BackupFailed), recorded, meta;
      }
      if wal.Some? || spill {
        return Some(WorkspaceBusy), recorded, meta;
      }
      var captured: bool;
      captured, recorded := Capture();
      if !captured {
        return Some(BackupFailed), recorded, meta;
      }
      var copied := ReadMetadata(p, staging.value.children[DatabaseFile].bytes, None);
      return if copied == meta then None else Some(BackupFailed), recorded, meta;
    }

    /** Writes the manifest of the staged database and reads the whole backup back. */
    method Seal(meta: Metadata, backupId: string, createdAt: string, marker: string, recorded0: map<ChildName, nat>)
      returns (r: Result<Receipt, Code>, recorded: map<ChildName, nat>)
      requires staging.Some? && AllRecorded(staging.value, recorded0) && staging.value.children.Keys == {DatabaseFile}
      modifies this`staging, this`clock, this`faults
      ensures staging.Some? && staging.value.id == old(staging).value.id
      ensures r.Ok? ==>
              AllRecorded(staging.value, recorded)
              && LoadAndVerify(p, ViewOf(staging.value)) == Ok(Verified(r.value.manifest, r.value.manifestSha256))
      ensures r.Ok? ==> staging.value.children.Keys == {DatabaseFile, ManifestFile} && faults == old(faults)
      ensures faults >= old(faults) && (faults == old(faults) ==> AllRecorded(staging.value, recorded))
      ensures r.Ok? ==> BytesOf(staging.value, DatabaseFile) == BytesOf(old(staging).value, DatabaseFile)
      ensures r.Ok? && Canonical(p) ==> Labelled(r.value.manifest, backupId, createdAt, marker)
      ensures var bytes := BytesOf(old(staging).value, DatabaseFile);
              var payload := p.encode(BuildManifest(meta, backupId, createdAt, marker, |bytes|, Sha256(p, bytes)));
              |bytes| > MAX_DATABASE_BYTES || |payload| > MAX_MANIFEST_BYTES ==>
                r.Raise? && staging == old(staging) && ((forall t :: reply(t)) ==> r.error == BackupTooLarge)
      ensures var bytes := BytesOf(old(staging).value, DatabaseFile);
              var payload := p.encode(BuildManifest(meta, backupId, createdAt, marker, |bytes|, Sha256(p, bytes)));
              && (forall t :: reply(t)) && |bytes| <= MAX_DATABASE_BYTES && |payload| <= MAX_MANIFEST_BYTES
              && LoadAndVerify(p, BackupView(true, payload, bytes, false)).Ok?
              ==> r.Ok?
    {
      hide LoadAndVerify, Sha256, BuildManifest, Canonical, Labelled;
      recorded := recorded0;
      var bytes := staging.value.children[DatabaseFile].bytes;
      var hashed := Attempt();
      if !hashed {
        return Raise(BackupFailed), recorded;
      }
      if |bytes| > MAX_DATABASE_BYTES {
        return Raise(BackupTooLarge), recorded;
      }
      var payload := p.encode(BuildManifest(meta, backupId, createdAt, marker, |bytes|, Sha256(p, bytes)));
      if |payload| > MAX_MANIFEST_BYTES {
        return Raise(BackupTooLarge), recorded;
      }
      var written: bool;
      written, recorded := WriteManifest(payload, recorded);
      if !written {
        return Raise(BackupFailed), recorded;
      }
      var readable := Attempt();
      assert ViewOf(staging.value) == BackupView(true, payload, bytes, false);
      var checked := LoadBackup(p, ViewOf(staging.value));
      if checked.Raise? {
        return Raise(if checked.error == BackupTooLarge then BackupTooLarge else BackupFailed), recorded;
      }
      if !readable {
        return Raise(BackupFailed), recorded;
      }
      LabelsSurvive(p, ViewOf(staging.value), meta, backupId, createdAt, marker, |bytes|, Sha256(p, bytes));
      return Ok(Receipt(checked.value.manifest, checked.value.manifestSha256)), recorded;
    }

    /** `_publish_directory_no_replace`, after a last look: the staging directory becomes the
        destination, unless something is there by then. */
    method Publish(ghost start: Option<Folder>) returns (failure: Option<Code>)
      requires staging.Some? && Sound(p, staging.value) && PathSafe(start) && NoneOurs(changes)
      modifies this`destination, this`staging, this`changes, this`clock, this`faults
      ensures PathSafe(start)
      ensures failure.None? ==>
              destination == old(staging) && staging.None? && OursAt(changes, |changes| - 1, old(staging))
      ensures failure.Some? ==> staging == old(staging) && NoneOurs(changes)
      ensures failure.None? ==> faults == old(faults)
      ensures faults >= old(faults)
      ensures failure.Some? ==> failure == Some(BackupFailed) || (failure == Some(BackupExists) && destination.Some?)
      ensures Unhindered() && old(destination).None? ==> failure.None?
    {
      hide Sound, Connected, NothingReplaced;
      OthersAct(start);
      if destination.Some? {
        return Some(BackupExists);
      }
      OthersAct(start);
      var attempted := Attempt();
      if !attempted {
        return Some(BackupFailed);
      }
      if destination.Some? {
        return Some(BackupExists);
      }
      ghost var c := Change(true, None, staging);
      ChangeFollows(p, start, changes, c);
      destination, staging := staging, None;
      changes := changes + [c];
      return None;
    }

    /** The checks before anything is created: the destination, the lock, the workspace and
        the room for a backup. */
    method Admit(ghost start: Option<Folder>) returns (refused: Option<Code>)
      requires PathSafe(start) && NoneOurs(changes)
      modifies this`destination, this`changes, this`clock, this`faults
      ensures PathSafe(start) && NoneOurs(changes)
      ensures old(destination).Some? ==> refused == Some(BackupExists) && destination == old(destination)
      ensures refused.None? ==> database.Some? && |database.value.bytes| <= MAX_DATABASE_BYTES && !spill
      ensures refused.None? ==> destination.None?
      ensures Unhindered() ==> destination == old(destination)
      ensures refused.None? ==> faults == old(faults)
      ensures Unhindered() && destination.None? ==>
                refused == if database.None? then Some(NotInitialized)
                           else if spill then Some(UnsafeWorkspace)
                           else if |database.value.bytes| > MAX_DATABASE_BYTES then Some(BackupTooLarge)
                           else None
    {
      hide Connected, NothingReplaced, ShownAfter;
      if destination.Some? {
        return Some(BackupExists);
      }
      var locked := Attempt();
      if !locked {
        return Some(WorkspaceBusy);
      }
      OthersAct(start);
      if destination.Some? {
        return Some(BackupExists);
      }
      if database.None? {
        return Some(NotInitialized);
      }
      var inspected := Attempt();
      if !inspected || spill {
        return Some(UnsafeWorkspace);
      }
      if |database.value.bytes| > MAX_DATABASE_BYTES {
        return Some(BackupTooLarge);
      }
      var roomy := Attempt();
      if !roomy {
        return Some(BackupTooLarge);
      }
      var made := Attempt();
      return if made then None else Some(BackupFailed);
    }

    /** `backup`, with the identifiers and times it draws given as arguments. */
    method Backup(backupId: string, createdAt: string, marker: string)
      returns (r: Result<Receipt, Code>, ghost meta: Option<Metadata>)
      requires Faithful(p, checkpoint) && staging.None? && changes == []
      modifies this
      ensures PathSafe(old(destination))
      ensures NoneOurs(changes) || exists i, f :: OursAt(changes, i, f)
      ensures r.Ok? ==> exists i :: OursAt(changes, i, destination)
      ensures Prior(p, old(Workspace()), Workspace())
      ensures old(Logical(p, Workspace())).None? ==> r.Raise?
      ensures r.Ok? ==> old(destination).None? && staging.None? && destination.Some? && wal.None? && database.Some?
      ensures r.Ok? ==>
              LoadAndVerify(p, ViewOf(destination.value)) == Ok(Verified(r.value.manifest, r.value.manifestSha256))
      ensures r.Ok? ==>
              meta.Some? && OpenMetadata(p, database.value.bytes, None) == meta
              && Describes(r.value.manifest, meta.value)
      ensures r.Ok? ==> destination.value.children.Keys == {DatabaseFile, ManifestFile}
      ensures r.Ok? && Canonical(p) ==> Labelled(r.value.manifest, backupId, createdAt, marker)
      ensures r.Ok? ==>
                var content := p.logical(BytesOf(destination.value, DatabaseFile), None);
                content.Some? && Says(p, r.value.manifest, content.value)
      ensures r.Ok? ==> faults == old(faults) && !spill
      ensures old(destination).Some? ==> r.Raise? && r.error == BackupExists && destination == old(destination)
      ensures Unhindered() && old(destination).None? && old(database).None? ==> r.Raise? && r.error == NotInitialized
      ensures staging.Some? ==> r.Raise? && r.error == BackupFailed
      // a partial directory stays behind without a failed call only for a log nobody expects
      ensures staging.Some? && faults == old(faults) ==> wal.Some? || LogAlone()
      ensures old(LeavesLog()) && old(destination).None? ==> staging.Some?
      ensures old(destination).None? ==>
                forall relations, meta0, copied
                  | old(Promising(meta0, copied))
                    && Publishable(p, relations, meta0, backupId, createdAt, marker, copied) :: r.Ok?
    {
      hide LoadAndVerify, OpenMetadata, Describes, Logical, Faithful, Publishable, ViewOf, Connected, NothingReplaced,
           Says, Canonical, Labelled;
      meta := None;
      NoChangesYet(p, destination);
      var refused := Admit(old(destination));
      if refused.Some? {
        return Raise(refused.value), meta;
      }
      var id := clock;
      staging := Some(Folder(id, map[]));
      var recorded: map<ChildName, nat>;
      r, recorded, meta := Stage(backupId, createdAt, marker);
      if r.Ok? {
        var folder := staging;
        DescribedSays(p, r.value.manifest, BytesOf(folder.value, DatabaseFile));
        var failure := Publish(old(destination));
        if failure.None? {
          ghost var at := |changes| - 1;
          OthersAct(old(destination));
          assert OursAt(changes, at, folder);
          var settled := Attempt();
          return if settled && destination == folder then r else Raise(BackupFailed), meta;
        }
        r := Raise(failure.value);
      }
      var cleaned := CleanupPartial(recorded, id);
      if !cleaned {
        return Raise(BackupFailed), meta;
      }
    }
  }
}
