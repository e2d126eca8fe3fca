/** Verified, atomic restore of a backup over a workspace database
    (tools/local-stack/local_stack.py:1488-1620, 2862-3107).

    The backup directory is read through `view` and `read`, which may show something
    different at every moment: nothing keeps another process from editing it. Every
    call that can fail asks `reply`. The state directory is held under the maintenance
    lock and changes only by what is done here; `history` records each state. */
module Restore {
  import opened Basics
  import opened BackupManifest
  import opened BackupVerify

  const READ_SIZE: nat := 1024 * 1024

  datatype FileState = FileState(ino: nat, bytes: Bytes)
  datatype Store = Store(database: Option<FileState>, wal: Option<Bytes>, temp: Option<FileState>)
  datatype CheckpointResult = Folded(bytes: Bytes, wal: Option<Bytes>) | Locked | Unreadable
  datatype Restoration = Restoration(manifest: Manifest, manifestSha256: string, changed: bool)

  /** The logical content of the workspace. */
  function Logical(p: Platform, s: Store): Option<Content> {
    if s.database.None? then None else p.logical(s.database.value.bytes, s.wal)
  }

  /** The database still holds what it held before; one that does not open is as it
      was, byte for byte, with its log. */
  ghost predicate Prior(p: Platform, s0: Store, s: Store) {
    && (s.database.Some? <==> s0.database.Some?)
    && Logical(p, s) == Logical(p, s0)
    && (s.database.Some? ==> s.database.value.ino == s0.database.value.ino)
    && (Logical(p, s0).None? ==> s.database == s0.database && s.wal == s0.wal)
  }

  /** There is a database with a log, and it does not open. */
  predicate Stuck(p: Platform, s: Store) {
    s.database.Some? && s.wal.Some? && Logical(p, s).None?
  }

  /** The database is the backup's, byte for byte by length and hash. */
  ghost predicate Restored(p: Platform, s0: Store, s: Store, m: Manifest) {
    && s.database.Some? && HasBytes(p, m, s.database.value.bytes)
    && (s0.database.Some? ==> s.wal.None?)
    && (s0.database.None? ==> s.wal == s0.wal)
  }

  /** What holds of every state of a run. */
  ghost predicate Safe(p: Platform, s0: Store, s: Store, m: Manifest) {
    && (Prior(p, s0, s) || Restored(p, s0, s, m))
    && (s0.temp.Some? ==> s.temp == s0.temp)
  }

  /** A write-ahead log beside a database goes away only by being folded into it, which
      takes a database that opens. */
  ghost predicate WalKept(p: Platform, a: Store, b: Store) {
    a.database.Some? && a.wal.Some? && b.wal != a.wal ==>
        b.database.Some? && Logical(p, a).Some? && Logical(p, b) == Logical(p, a)
  }

  /** CHECKPOINT opens the database, and moves log entries into the file without changing
      what is stored. */
  ghost predicate Faithful(p: Platform, checkpoint: (Bytes, Option<Bytes>, nat) -> CheckpointResult) {
    forall b, w, t :: checkpoint(b, w, t).Folded? ==>
      p.logical(b, w).Some? && p.logical(checkpoint(b, w, t).bytes, checkpoint(b, w, t).wal) == p.logical(b, w)
  }

  /** A checkpoint with this result lets the restore go on: the log is folded in, or the
      database does not open and has none. */
  predicate LeavesNoLog(s: Store, r: CheckpointResult) {
    (r.Folded? && r.wal.None?) || (r.Unreadable? && s.wal.None?)
  }

  /** The database opens, and the manifest describes what it holds. */
  ghost predicate Describing(p: Platform, m: Manifest, s: Store) {
    && s.database.Some?
    && OpenMetadata(p, s.database.value.bytes, None).Some?
    && Describes(m, OpenMetadata(p, s.database.value.bytes, None).value)
  }

  function Piece(b: Bytes, at: nat): Bytes {
    if at >= |b| then [] else if at + READ_SIZE <= |b| then b[at..at + READ_SIZE] else b[at..]
  }

  lemma NextPiece(b: Bytes, at: nat)
    requires at <= |b|
    ensures var c := Piece(Piece(b, at), 0);
            at + |c| <= |b| && b[..at] + c == b[..at + |c|] && (c == [] ==> at == |b|)
  {
  }

  lemma PriorIgnoresTemp(p: Platform, s0: Store, a: Store, b: Store)
    requires Prior(p, s0, a) && a.database == b.database && a.wal == b.wal
    ensures Prior(p, s0, b) && (s0.database.None? ==> b.wal == s0.wal)
  {
  }

  lemma LogicalOf(p: Platform, s: Store)
    requires s.database.Some?
    ensures Logical(p, s) == p.logical(s.database.value.bytes, s.wal)
  {
  }

  lemma VerifiedFacts(p: Platform, v: BackupView)
    requires LoadAndVerify(p, v).Ok?
    ensures var m := LoadAndVerify(p, v).value.manifest;
            && LoadAndVerify(p, v).value.manifestSha256 == Sha256(p, v.manifest) && |v.manifest| <= MAX_MANIFEST_BYTES
            && v.exact && HasBytes(p, m, v.database) && |v.database| <= MAX_DATABASE_BYTES
            && OpenMetadata(p, v.database, None).Some? && Describes(m, OpenMetadata(p, v.database, None).value)
  {
    hide Describes, OpenMetadata, HeadValid, CatalogWithinLimits, TablesValid, Sha256;
  }

  /** `v` verifies under `expected` and nothing stands in the way of restoring it over `s`. */
  ghost predicate Restorable(p: Platform, v: BackupView, expected: string, s: Store) {
    && p.formats.isSha(expected) && s.temp.None?
    && LoadAndVerify(p, v).Ok? && LoadAndVerify(p, v).value.manifestSha256 == expected
  }

  class StateDirectory {
    var store: Store
    var clock: nat
    ghost var history: seq<Store>
    ghost var faults: nat   // calls that failed so far
    const p: Platform
    const checkpoint: (Bytes, Option<Bytes>, nat) -> CheckpointResult
    const view: nat -> BackupView
    const read: (nat, nat) -> Bytes
    const reply: nat -> bool
    const databaseSpill: bool   // a temp sidecar of the database exists
    const tempSidecar: bool     // the restore temp has a sidecar

    constructor (store: Store, p: Platform, checkpoint: (Bytes, Option<Bytes>, nat) -> CheckpointResult,
        view: nat -> BackupView,
                 read: (nat, nat) -> Bytes, reply: nat -> bool, databaseSpill: bool, tempSidecar: bool)
      ensures this.store == store && history == [store] && faults == 0
      ensures this.p == p && this.checkpoint == checkpoint && this.view == view && this.read == read
      ensures this.reply == reply
      ensures this.databaseSpill == databaseSpill && this.tempSidecar == tempSidecar
    {
      this.store, clock, history, faults := store, 0, [store], 0;
      this.p, this.checkpoint, this.view, this.read, this.reply := p, checkpoint, view, read, reply;
      this.databaseSpill, this.tempSidecar := databaseSpill, tempSidecar;
    }

    /** Every state so far, from `s0` to now, is safe for restoring `m`. */
    ghost predicate OnTrack(s0: Store, m: Manifest)
      reads this
    {
      && history != [] && history[0] == s0 && history[|history| - 1] == store
      && (forall i :: 0 <= i < |history| ==> Safe(p, s0, history[i], m))
      && (forall i :: 0 <= i < |history| - 1 ==> WalKept(p, history[i], history[i + 1]))
    }

    /** Nothing fails and the backup directory shows `v` throughout. */
    ghost predicate Quiet(v: BackupView)
    {
      && (forall t :: reply(t)) && (forall t :: view(t) == v)
      && (forall t, at :: read(t, at) == Piece(v.database, at))
      && !databaseSpill && !tempSidecar
    }

    method Attempt() returns (ok: bool)
      modifies this`clock, this`faults
      ensures ok == reply(old(clock)) && clock == old(clock) + 1
      ensures faults == old(faults) + (if ok then 0 else 1)
    {
      ok := reply(clock);
      clock := clock + 1;
      faults := faults + (if ok then 0 else 1);
    }

    method Become(s: Store, ghost s0: Store, ghost m: Manifest)
      requires OnTrack(s0, m) && Safe(p, s0, s, m) && WalKept(p, store, s)
      modifies this`store, this`history
      ensures store == s && OnTrack(s0, m)
    {
      store := s;
      history := history + [s];
    }

    /** One verification of the backup directory, as it is now. */
    method Verify() returns (r: Result<Verified, Code>)
      modifies this`clock, this`faults
      ensures clock > old(clock)
      ensures r.Ok? ==> LoadAndVerify(p, view(old(clock))) == r && faults == old(faults)
      ensures forall v :: Quiet(v) ==> r == LoadAndVerify(p, v)
    {
      hide LoadAndVerify;
      r := LoadBackup(p, view(clock));
      clock := clock + 1;
      var ok := Attempt();
      if r.Ok? && !ok {
        return Raise(BackupInvalid);
      }
    }

    /** The backup is verified under the expected hash, and again once the lock is held. */
    method Pin(expected: string) returns (r: Result<Manifest, Code>)
      modifies this`clock, this`faults
      ensures clock >= old(clock)
      ensures r.Ok? ==> VerifiedTwice(expected, r.value, old(clock), clock) && faults == old(faults)
      ensures !p.formats.isSha(expected) ==> r.Raise? && r.error == InvalidArguments
      ensures forall v :: Quiet(v) && p.formats.isSha(expected) && OtherBackup(v, expected) ==>
                r.Raise? && r.error == ManifestMismatch
      ensures forall v :: Quiet(v) && p.formats.isSha(expected) && LoadAndVerify(p, v).Raise? ==>
              r.Raise? && r.error == LoadAndVerify(p, v).error
      ensures forall v, m ::
                Quiet(v) && p.formats.isSha(expected) && LoadAndVerify(p, v) == Ok(Verified(m, expected)) ==>
                  r.Ok? && r.value == m
    {
      hide LoadAndVerify, VerifiedTwice;
      if !p.formats.isSha(expected) {
        return Raise(InvalidArguments);
      }
      ghost var t := clock;
      var first := Verify();
      if first.Raise? {
        return Raise(first.error);
      }
      var m := first.value.manifest;
      if first.value.manifestSha256 != expected {
        return Raise(ManifestMismatch);
      }
      var locked := Attempt();
      if !locked {
        return Raise(WorkspaceBusy);
      }
      ghost var u := clock;
      var second := Verify();
      if second.Raise? {
        return Raise(second.error);
      }
      if second.value.manifestSha256 != expected || second.value.manifest != m {
        return Raise(BackupInvalid);
      }
      assert first.value == Verified(m, expected) == second.value;
      TwoMoments(old(clock), t, u, clock, expected, m);
      return Ok(m);
    }

    /** The manifest file's hash, as it is now, with no other file beside the two. */
    method ManifestSha() returns (r: Result<string, Code>)
      modifies this`clock, this`faults
      ensures clock > old(clock)
      ensures r.Ok? ==> r.value == Sha256(p, view(old(clock)).manifest) && faults == old(faults)
      ensures r.Ok? ==> view(old(clock)).exact && |view(old(clock)).manifest| <= MAX_MANIFEST_BYTES
      ensures forall v :: Quiet(v) && v.exact && |v.manifest| <= MAX_MANIFEST_BYTES ==>
              r.Ok? && r.value == Sha256(p, v.manifest)
    {
      var exact, raw := view(clock).exact, view(clock).manifest;
      clock := clock + 1;
      var ok := Attempt();
      if !ok || !exact {
        return Raise(BackupInvalid);
      }
      if |raw| > MAX_MANIFEST_BYTES {
        return Raise(BackupTooLarge);
      }
      return Ok(Sha256(p, raw));
    }

    /** Folds the log of the current database, if there is one. */
    method CheckpointCurrent(ghost m: Manifest) returns (failure: Option<Code>)
      requires Faithful(p, checkpoint) && history == [store]
      modifies this
      ensures OnTrack(old(store), m) && Prior(p, old(store), store) && store.temp == old(store.temp)
      ensures failure.None? && store.database.Some? ==> store.wal.None?
      ensures failure.Some? ==> failure.value in {UnsafeWorkspace, WorkspaceBusy, RestoreFailed}
      ensures old(store).database.None? ==> failure.None? && store == old(store)
      ensures (exists v :: Quiet(v)) && old(store).database.Some? && FoldsCleanly(old(store)) ==> failure.None?
      ensures old(store).database.Some? && Settled(old(store)) ==> store == old(store)
      ensures Stuck(p, old(store)) ==> failure.Some? && store == old(store)
      ensures clock >= old(clock)
      ensures failure.None? ==> faults == old(faults) && (store.database.Some? ==> !databaseSpill)
      ensures (exists v :: Quiet(v)) && old(store).database.Some? ==>
                (AlwaysLocked(old(store)) ==> failure == Some(WorkspaceBusy) && store == old(store))
                && (NeverOpens(old(store)) && old(store).wal.Some? ==>
                    failure == Some(RestoreFailed) && store == old(store))
    {
      var s := store;
      if s.database.None? {
        return None;
      }
      var inspected := Attempt();
      if !inspected || databaseSpill {
        return Some(UnsafeWorkspace);
      }
      var result := checkpoint(s.database.value.bytes, s.wal, clock);
      clock := clock + 1;
      match result {
        case Folded(bytes, wal) =>
          Become(s.(database := Some(FileState(s.database.value.ino, bytes)), wal := wal), s, m);
          if wal.Some? {
            return Some(WorkspaceBusy);
          }
        case Locked =>
          return Some(WorkspaceBusy);
        case Unreadable =>
          if s.wal.Some? {
            return Some(RestoreFailed);
          }
      }
      return None;
    }

    /** A checkpoint of `s` leaves no log, whenever it happens. */
    ghost predicate FoldsCleanly(s: Store)
      requires s.database.Some?
    {
      forall t :: LeavesNoLog(s, checkpoint(s.database.value.bytes, s.wal, t))
    }

    ghost predicate AlwaysLocked(s: Store)
      requires s.database.Some?
    {
      forall t :: checkpoint(s.database.value.bytes, s.wal, t) == Locked
    }

    ghost predicate NeverOpens(s: Store)
      requires s.database.Some?
    {
      forall t :: checkpoint(s.database.value.bytes, s.wal, t) == Unreadable
    }

    ghost predicate CanFold(s: Store) {
      s.database.Some? ==> FoldsCleanly(s)
    }

    /** A checkpoint of `s` has nothing to do: already checkpointed bytes are left alone. */
    ghost predicate Settled(s: Store)
      requires s.database.Some?
    {
      s.wal.None? && forall t :: checkpoint(s.database.value.bytes, None, t) == Folded(s.database.value.bytes, None)
    }

    /** A backup that verifies, but under another hash. */
    ghost predicate OtherBackup(v: BackupView, expected: string) {
      LoadAndVerify(p, v).Ok? && LoadAndVerify(p, v).value.manifestSha256 != expected
    }

    /** At this moment the directory was a backup with the manifest `m` and this hash. */
    ghost predicate GenuineAt(t: nat, expected: string, m: Manifest) {
      Genuine(p, view(t), m) && p.hex(p.digest(view(t).manifest)) == expected
    }

    /** So it was at two different moments in this time. */
    ghost predicate VerifiedTwice(expected: string, m: Manifest, from: nat, to: nat) {
      exists t, u :: from <= t < u < to && GenuineAt(t, expected, m) && GenuineAt(u, expected, m)
    }

    /** The manifest file had this hash at two moments in this time. */
    ghost predicate HashedTwice(expected: string, from: nat, to: nat) {
      exists t, u :: from <= t < u < to && HashedAt(t, expected) && HashedAt(u, expected)
    }

    lemma HashedWithin(expected: string, from: nat, to: nat, from': nat, to': nat)
      requires HashedTwice(expected, from, to) && from' <= from && to <= to'
      ensures HashedTwice(expected, from', to')
    {
    }

    ghost predicate HashedAt(t: nat, expected: string) {
      view(t).exact && |view(t).manifest| <= MAX_MANIFEST_BYTES && p.hex(p.digest(view(t).manifest)) == expected
    }

    lemma TwoMoments(from: nat, t: nat, u: nat, to: nat, expected: string, m: Manifest)
      requires from <= t < u < to && LoadAndVerify(p, view(t)) == Ok(Verified(m, expected))
      requires LoadAndVerify(p, view(u)) == Ok(Verified(m, expected))
      ensures VerifiedTwice(expected, m, from, to)
    {
      hide LoadAndVerify, Genuine;
      VerifiesIff(p, view(t), m);
      VerifiesIff(p, view(u), m);
      assert GenuineAt(t, expected, m) && GenuineAt(u, expected, m);
    }

    lemma NeverGenuine(expected: string, m: Manifest)
      requires exists from: nat, to: nat :: VerifiedTwice(expected, m, from, to)
      ensures exists t :: view(t).exact && !view(t).sidecars && LoadAndVerify(p, view(t)).Ok?
    {
      hide LoadAndVerify, Accepted, OpenMetadata, Describes;
      var from: nat, to: nat :| VerifiedTwice(expected, m, from, to);
      var t: nat, u: nat :| from <= t < u < to && GenuineAt(t, expected, m) && GenuineAt(u, expected, m);
      VerifiesIff(p, view(t), m);
    }

    /** The workspace already holds exactly this backup, checkpointed. */
    ghost predicate LeavesAlone(s: Store, m: Manifest) {
      s.database.Some? && Settled(s) && HasBytes(p, m, s.database.value.bytes)
    }

    /** The store as it was, except for a temp file of this run. */
    ghost predicate OnlyTempOf(s0: Store, s: Store)
    {
      s.database == s0.database && s.wal == s0.wal
    }

    method DropTemp(ino: nat, ghost s0: Store, ghost m: Manifest) returns (ok: bool)
      requires OnTrack(s0, m) && s0.temp.None? && store.temp.Some? && store.temp.value.ino == ino
      modifies this
      ensures OnTrack(s0, m) && OnlyTempOf(old(store), store)
      ensures if ok then store.temp.None? else store.temp == old(store.temp)
      ensures clock >= old(clock) && (ok ==> faults == old(faults))
      ensures (forall t :: reply(t)) ==> ok
    {
      ok := Attempt();
      if ok {
        Become(store.(temp := None), s0, m);
      }
    }

    /** The read/write loop: whatever the reads return is written and hashed. */
    method CopyLoop(ghost s0: Store, ghost m: Manifest) returns (failure: Option<Code>, absorbed: Bytes)
      requires OnTrack(s0, m) && s0.temp.None? && store.temp.Some? && store.temp.value.bytes == []
      modifies this
      ensures OnTrack(s0, m) && OnlyTempOf(old(store), store)
      ensures store.temp.Some? && store.temp.value.ino == old(store.temp.value.ino)
      ensures failure.None? ==> store.temp.value.bytes == absorbed && |absorbed| <= MAX_DATABASE_BYTES
      ensures failure.Some? ==> failure.value in {BackupTooLarge, RestoreFailed}
      ensures failure.Some? && (forall t :: reply(t)) ==> failure == Some(BackupTooLarge)
      ensures clock >= old(clock) && (failure.None? ==> faults == old(faults))
      ensures forall v :: Quiet(v) && |v.database| <= MAX_DATABASE_BYTES ==> failure.None? && absorbed == v.database
    {
      absorbed := [];
      while true
        invariant OnTrack(s0, m) && OnlyTempOf(old(store), store)
        invariant store.temp.Some? && store.temp.value.ino == old(store.temp.value.ino)
        invariant store.temp.value.bytes == absorbed
        invariant |absorbed| <= MAX_DATABASE_BYTES
        invariant clock >= old(clock) && faults == old(faults)
        invariant forall v :: Quiet(v) ==> |absorbed| <= |v.database| && absorbed == v.database[..|absorbed|]
        decreases MAX_DATABASE_BYTES - |absorbed|
      {
        var chunk := Piece(read(clock, |absorbed|), 0);
        clock := clock + 1;
        forall v | Quiet(v) ensures |absorbed + chunk| <= |v.database|
            && absorbed + chunk == v.database[..|absorbed + chunk|] && (chunk == [] ==> absorbed == v.database) {
          NextPiece(v.database, |absorbed|);
        }
        if chunk == [] {
          break;
        }
        if |absorbed| + |chunk| > MAX_DATABASE_BYTES {
          return Some(BackupTooLarge), absorbed;
        }
        absorbed := absorbed + chunk;
        var written := Attempt();
        if !written {
          return Some(RestoreFailed), absorbed;
        }
        Become(store.(temp := Some(FileState(store.temp.value.ino, absorbed))), s0, m);
      }
      var synced := Attempt();
      return if synced then None else Some(RestoreFailed), absorbed;
    }

    /** `_copy_database_to_restore_temp`. */
    method CopyToTemp(ghost s0: Store, m: Manifest) returns (r: Result<nat, Code>)
      requires OnTrack(s0, m) && store.temp == s0.temp
      modifies this
      ensures OnTrack(s0, m) && OnlyTempOf(old(store), store)
      ensures r.Ok? ==>
              s0.temp.None? && store.temp.Some? && store.temp.value.ino == r.value
              && HasBytes(p, m, store.temp.value.bytes)
      ensures clock >= old(clock) && (r.Ok? ==> faults == old(faults))
      ensures r.Raise? && ((forall t :: reply(t)) || r.error != RestoreFailed) ==> store.temp == s0.temp
      ensures forall v ::
                Quiet(v) && HasBytes(p, m, v.database) && |v.database| <= MAX_DATABASE_BYTES && s0.temp.None? ==>
                  r.Ok? && store.temp.value.bytes == v.database
    {
      hide Sha256;
      var size := |view(clock).database|;
      clock := clock + 1;
      var sourceSeen := Attempt();
      if !sourceSeen || size != m.database.bytes {
        return Raise(BackupInvalid);
      }
      if store.temp.Some? {
        return Raise(RestoreFailed);
      }
      var sourceOpened := Attempt();
      if !sourceOpened {
        return Raise(RestoreFailed);
      }
      var sourceUnchanged := Attempt();
      if !sourceUnchanged {
        return Raise(BackupInvalid);
      }
      var created := Attempt();
      if !created {
        return Raise(RestoreFailed);
      }
      var ino := clock;
      Become(store.(temp := Some(FileState(ino, []))), s0, m);
      r := FillTemp(s0, m, ino);
    }

    /** Copies into the new temp file and checks what arrived. */
    method FillTemp(ghost s0: Store, m: Manifest, ino: nat) returns (r: Result<nat, Code>)
      requires OnTrack(s0, m) && s0.temp.None? && store.temp == Some(FileState(ino, []))
      modifies this
      ensures OnTrack(s0, m) && OnlyTempOf(old(store), store)
      ensures r.Ok? ==>
              store.temp.Some? && store.temp.value.ino == r.value && HasBytes(p, m, store.temp.value.bytes)
      ensures clock >= old(clock) && (r.Ok? ==> faults == old(faults))
      ensures r.Raise? && ((forall t :: reply(t)) || r.error != RestoreFailed) ==> store.temp.None?
      ensures r.Raise? && (forall t :: reply(t)) ==> r.error == BackupInvalid || r.error == BackupTooLarge
      ensures forall v :: Quiet(v) && HasBytes(p, m, v.database) && |v.database| <= MAX_DATABASE_BYTES ==>
              r.Ok? && store.temp.value.bytes == v.database
    {
      hide Sha256, Logical;
      var failure, absorbed := CopyLoop(s0, m);
      var identified := Attempt();
      if !identified {
        return Raise(RestoreFailed);
      }
      var sourceSame := Attempt();
      if failure.None? && (|absorbed| != m.database.bytes || Sha256(p, absorbed) != m.database.sha256 || !sourceSame) {
        failure := Some(BackupInvalid);
      }
      var reread := Attempt();
      if failure.None? && !(reread && HasBytes(p, m, store.temp.value.bytes)) {
        failure := Some(RestoreFailed);
      }
      if failure.Some? {
        var dropped := DropTemp(ino, s0, m);
        return Raise(if dropped then failure.value else RestoreFailed);
      }
      return Ok(ino);
    }

    lemma HashIs(t: nat)
      ensures p.hex(p.digest(view(t).manifest)) == Sha256(p, view(t).manifest)
    {
    }

    /** From the verified backup to the replaced database. `temp` is the identity of
        the temp file once this run has recorded it. */
    method ReplaceDatabase(ghost s0: Store, m: Manifest, expected: string, current: Option<nat>)
      returns (failure: Option<Code>, temp: Option<nat>)
      requires OnTrack(s0, m) && Prior(p, s0, store) && store.temp == s0.temp
      requires store.database.Some? ==> store.wal.None? && current == Some(store.database.value.ino)
      requires store.database.None? ==> current.None?
      modifies this
      ensures OnTrack(s0, m)
      ensures temp.Some? ==> s0.temp.None? && (store.temp.Some? ==> store.temp.value.ino == temp.value)
      ensures failure.None? ==> store.temp.None? && Restored(p, s0, store, m) && Describing(p, m, store)
      ensures failure.Some? ==> OnlyTempOf(old(store), store)
      ensures (forall t :: reply(t)) && temp.None? ==> store.temp == s0.temp
      ensures clock >= old(clock)
      ensures failure.None? ==> faults == old(faults) && !tempSidecar && HashedTwice(expected, old(clock), clock)
      ensures forall v :: Quiet(v) && LoadAndVerify(p, v) == Ok(Verified(m, expected)) && s0.temp.None? ==>
              failure.None? && store.database.value.bytes == v.database
    {
      hide LoadAndVerify, Describes, OpenMetadata, Logical, HasBytes, Sha256;
      forall v | Quiet(v) && LoadAndVerify(p, v) == Ok(Verified(m, expected))
        ensures Sha256(p, v.manifest) == expected && |v.manifest| <= MAX_MANIFEST_BYTES && HasBytes(p, m, v.database)
        ensures v.exact
        ensures |v.database| <= MAX_DATABASE_BYTES
        ensures OpenMetadata(p, v.database, None).Some? && Describes(m, OpenMetadata(p, v.database, None).value)
      {
        VerifiedFacts(p, v);
      }
      temp := None;
      ghost var before := store;
      ghost var t := clock;
      var manifestSha := ManifestSha();
      if manifestSha.Raise? {
        return Some(manifestSha.error), temp;
      }
      if manifestSha.value != expected {
        return Some(BackupInvalid), temp;
      }
      assert HashedAt(t, expected) by { HashIs(t); }
      var copied := CopyToTemp(s0, m);
      if copied.Raise? {
        return Some(copied.error), temp;
      }
      temp := Some(copied.value);
      if tempSidecar {
        return Some(RestoreFailed), temp;
      }
      var bytes := store.temp.value.bytes;
      var readable := Attempt();
      var meta := ReadMetadata(p, bytes, None);
      if !readable || meta.None? {
        return Some(BackupInvalid), temp;
      }
      var same := CompareMetadata(m, meta.value);
      if !same {
        return Some(BackupInvalid), temp;
      }
      ghost var u := clock;
      manifestSha := ManifestSha();
      if manifestSha.Raise? {
        return Some(manifestSha.error), temp;
      }
      if manifestSha.value != expected {
        return Some(BackupInvalid), temp;
      }
      assert HashedAt(u, expected) by { HashIs(u); }
      var reread := Attempt();
      if !reread || !HasBytes(p, m, bytes) {
        return Some(RestoreFailed), temp;
      }
      if store.database.Some? != current.Some? || (current.Some? && store.database.value.ino != current.value) {
        return Some(UnsafeWorkspace), temp;
      }
      var replaced := Attempt();
      if !replaced {
        return Some(RestoreFailed), temp;
      }
      PriorIgnoresTemp(p, s0, before, store);
      Become(Store(store.temp, store.wal, None), s0, m);
      return None, temp;
    }

    /** Removes what is left of the temp file, and reads the restored database once more. */
    method Conclude(ghost s0: Store, m: Manifest, failure: Option<Code>, temp: Option<nat>)
        returns (answer: Option<Code>)
      requires OnTrack(s0, m)
      requires temp.Some? ==> s0.temp.None? && (store.temp.Some? ==> store.temp.value.ino == temp.value)
      requires failure.None? ==> store.temp.None? && Restored(p, s0, store, m)
      modifies this
      ensures OnTrack(s0, m) && clock >= old(clock)
      ensures answer.None? ==> failure.None? && store == old(store) && faults == old(faults)
      ensures answer.Some? && answer != Some(RestoreFailed) ==> store.temp == s0.temp
      ensures (forall t :: reply(t)) && (temp.None? ==> old(store).temp == s0.temp) ==> store.temp == s0.temp
      ensures failure.None? && (exists v :: Quiet(v)) ==> answer.None?
    {
      if store.temp.Some? {
        if temp.None? {
          return Some(RestoreFailed);
        }
        var dropped := DropTemp(temp.value, s0, m);
        if !dropped {
          return Some(RestoreFailed);
        }
      }
      if failure.Some? {
        return failure;
      }
      var reread := Attempt();
      if !reread || |store.database.value.bytes| != m.database.bytes
          || p.hex(p.digest(store.database.value.bytes)) != m.database.sha256 {
        return Some(RestoreFailed);
      }
      return None;
    }

    /** From the verified manifest to the answer, under the lock. */
    method RestorePinned(m: Manifest, expected: string) returns (r: Result<Restoration, Code>)
      requires Faithful(p, checkpoint) && history == [store]
      modifies this
      ensures OnTrack(old(store), m) && clock >= old(clock)
      ensures r.Ok? ==> r.value.manifest == m && r.value.manifestSha256 == expected
      ensures (forall t :: reply(t)) || (r.Raise? && r.error != RestoreFailed) ==> store.temp == old(store.temp)
      ensures r.Ok? ==> Restored(p, old(store), store, m) && store.temp == old(store.temp)
      ensures r.Ok? && r.value.changed ==> Describing(p, m, store)
      ensures r.Ok? && !r.value.changed ==> Prior(p, old(store), store)
      ensures r.Ok? ==> faults == old(faults) && (old(store).database.Some? ==> !databaseSpill)
      ensures r.Ok? && r.value.changed ==> !tempSidecar && HashedTwice(expected, old(clock), clock)
      ensures Stuck(p, old(store)) ==> r.Raise? && store == old(store)
      ensures (exists v :: Quiet(v)) ==> Refusals(old(store), r, store)
      ensures forall v :: Quiet(v) && VerifiesAs(v, m, expected) && old(store).temp.None? && CanFold(old(store)) ==>
              r.Ok?
      ensures r.Ok? && r.value.changed ==>
                forall v :: Quiet(v) && VerifiesAs(v, m, expected) && old(store).temp.None? ==>
                  store.database.value.bytes == v.database
      ensures r.Ok? && LeavesAlone(old(store), m) ==> !r.value.changed && store == old(store)
    {
      hide LoadAndVerify, Describes, OpenMetadata, Logical, WalKept, Faithful, Sha256, HashedTwice, AlwaysLocked,
           NeverOpens, Refusals;
      ghost var s0 := store;
      var failure := CheckpointCurrent(m);
      if failure.Some? {
        if exists v :: Quiet(v) {
          RefusalIs(s0, failure.value, store);
        }
        return Raise(failure.value);
      }
      forall a, s | exists v :: Quiet(v) ensures Refusals(s0, a, s) {
        NoRefusal(s0, a, s);
      }
      var current: Option<nat> := None;
      if store.database.Some? {
        current := Some(store.database.value.ino);
        if |store.database.value.bytes| == m.database.bytes {
          var hashed := Attempt();
          if !hashed {
            return Raise(RestoreFailed);
          }
          if Sha256(p, store.database.value.bytes) == m.database.sha256 {
            return Ok(Restoration(m, expected, false));
          }
        }
      }
      var roomy := Attempt();
      if !roomy {
        return Raise(RestoreFailed);
      }
      var temp: Option<nat>;
      ghost var from := clock;
      failure, temp := ReplaceDatabase(s0, m, expected, current);
      if failure.None? {
        HashedWithin(expected, from, clock, old(clock), clock);
      }
      ghost var to := clock;
      failure := Conclude(s0, m, failure, temp);
      if failure.Some? {
        return Raise(failure.value);
      }
      HashedWithin(expected, old(clock), to, old(clock), clock);
      return Ok(Restoration(m, expected, true));
    }

    ghost predicate VerifiesAs(v: BackupView, m: Manifest, expected: string) {
      LoadAndVerify(p, v) == Ok(Verified(m, expected))
    }

    /** What a database that is in use, or has a log and does not open, is answered. */
    ghost predicate Refusals(s0: Store, r: Result<Restoration, Code>, s: Store) {
      s0.database.Some? ==>
        && (AlwaysLocked(s0) ==> r.Raise? && r.error == WorkspaceBusy && s == s0)
        && (NeverOpens(s0) && s0.wal.Some? ==> r.Raise? && r.error == RestoreFailed && s == s0)
    }

    lemma RefusalIs(s0: Store, code: Code, s: Store)
      requires s0.database.Some? ==>
                 && (AlwaysLocked(s0) ==> code == WorkspaceBusy && s == s0)
                 && (NeverOpens(s0) && s0.wal.Some? ==> code == RestoreFailed && s == s0)
      ensures Refusals(s0, Raise(code), s)
    {
    }

    lemma NoRefusal(s0: Store, r: Result<Restoration, Code>, s: Store)
      requires s0.database.Some? ==> !AlwaysLocked(s0) && !(NeverOpens(s0) && s0.wal.Some?)
      ensures Refusals(s0, r, s)
    {
    }

    /** `restore`. `pinned` is the manifest this run verified under the expected hash,
        if it got that far; until then it changes nothing. */
    method Restore(expected: string) returns (r: Result<Restoration, Code>, ghost pinned: Option<Manifest>)
      requires Faithful(p, checkpoint)
      modifies this
      ensures pinned.None? ==> r.Raise? && store == old(store)
      ensures pinned.Some? ==> exists mid: nat :: VerifiedTwice(expected, pinned.value, old(clock), mid)
      ensures pinned.Some? ==> OnTrack(old(store), pinned.value)
      ensures r.Ok? ==> pinned == Some(r.value.manifest) && r.value.manifestSha256 == expected
      ensures r.Ok? ==> Restored(p, old(store), store, r.value.manifest) && store.temp == old(store.temp)
      ensures r.Ok? && r.value.changed ==> Describing(p, r.value.manifest, store)
      ensures r.Ok? && !r.value.changed ==> Prior(p, old(store), store)
      ensures r.Ok? ==> (store.wal.None? <==> old(store).database.Some? || old(store).wal.None?)
      ensures r.Ok? ==>
              Logical(p, store) == p.logical(store.database.value.bytes,
              if old(store).database.Some? then None else old(store).wal)
      // a temp file of this run stays behind only if a call failed, and then the answer is `restore_failed`
      ensures (forall t :: reply(t)) || (r.Raise? && r.error != RestoreFailed) ==> store.temp == old(store).temp
      // nothing that failed or stood in the way is overlooked
      ensures r.Ok? ==> faults == old(faults) && (old(store).database.Some? ==> !databaseSpill)
      ensures r.Ok? && r.value.changed ==> !tempSidecar
      ensures r.Ok? && r.value.changed ==>
                exists mid: nat ::
                  VerifiedTwice(expected, r.value.manifest, old(clock), mid) && HashedTwice(expected, mid, clock)
      ensures (forall t :: !view(t).exact || view(t).sidecars) ==> r.Raise? && store == old(store)
      ensures Stuck(p, old(store)) ==> r.Raise? && store == old(store)
      ensures !p.formats.isSha(expected) ==> r.Raise? && r.error == InvalidArguments && store == old(store)
      ensures forall v :: Quiet(v) && LoadAndVerify(p, v).Raise? && p.formats.isSha(expected) ==>
              r.Raise? && r.error == LoadAndVerify(p, v).error && store == old(store)
      ensures forall v :: Quiet(v) && p.formats.isSha(expected) && OtherBackup(v, expected) ==>
                r.Raise? && r.error == ManifestMismatch && store == old(store)
      ensures forall v :: Quiet(v) && Restorable(p, v, expected, old(store)) ==> Refusals(old(store), r, store)
      // and nothing else is refused
      ensures forall v :: Quiet(v) && Restorable(p, v, expected, old(store)) && CanFold(old(store)) ==> r.Ok?
      ensures forall v :: Quiet(v) && Restorable(p, v, expected, old(store)) && r.Ok? && r.value.changed ==>
              store.database.value.bytes == v.database
      ensures r.Ok? && LeavesAlone(old(store), r.value.manifest) ==> !r.value.changed && store == old(store)
    {
      hide LoadAndVerify, Describes, OpenMetadata, Logical, WalKept, Faithful, Sha256, VerifiedTwice, HashedTwice,
           Stuck, Refusals, OtherBackup, Prior, Safe, HasBytes, LeavesAlone, CanFold, Describing, OnTrack;
      history := [store];
      pinned := None;
      var pin := Pin(expected);
      if pin.Raise? {
        OnlyOneManifest(expected);
        return Raise(pin.error), None;
      }
      ghost var from := clock;
      pinned := Some(pin.value);
      NeverGenuine(expected, pin.value);
      OnlyOneManifest(expected);
      r := RestorePinned(pin.value, expected);
      if r.Ok? {
        LogicalOf(p, store);
      }
    }

    /** What verifies under a hash is restorable or stands under another hash. */
    lemma OnlyOneManifest(expected: string)
      ensures forall v :: Restorable(p, v, expected, store) || LoadAndVerify(p, v).Ok? ==>
                VerifiesAs(v, LoadAndVerify(p, v).value.manifest, LoadAndVerify(p, v).value.manifestSha256)
      ensures forall v, m :: OtherBackup(v, expected) ==> !VerifiesAs(v, m, expected)
    {
      hide LoadAndVerify;
    }

    /** Where the directory never changes, what was verified is what it shows. */
    lemma VerifiedThis(v: BackupView, expected: string, m: Manifest)
      requires (exists from: nat, to: nat :: VerifiedTwice(expected, m, from, to)) && forall t :: view(t) == v
      ensures LoadAndVerify(p, v) == Ok(Verified(m, expected))
    {
      hide LoadAndVerify, Genuine;
      var from: nat, to: nat :| VerifiedTwice(expected, m, from, to);
      var t: nat, u: nat :| from <= t < u < to && GenuineAt(t, expected, m) && GenuineAt(u, expected, m);
      VerifiesIff(p, v, m);
    }
  }
}
