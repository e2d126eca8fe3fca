/** The corruption drill: copy a backup, damage one byte, see it refused, then restore
    the good one (tools/local-stack/run_backup_restore_demo.py:803-1009, 1405-1500). */
module CorruptCopy {
  import opened Basics
  import opened BackupManifest
  import opened BackupVerify
  import opened Restore

  const CHUNK: nat := 1024 * 1024

  /** `b ^ 0xFF`: on eight bits, the complement. */
  function Flip(b: byte): byte {
    255 - b
  }

  /** The file with its first byte flipped. */
  function Corrupted(b: Bytes): Bytes
    requires b != []
  {
    [Flip(b[0])] + b[1..]
  }

  /** On every pattern of eight bits it inverts each bit. */
  lemma FlipIsXor(bits: bv8)
    ensures Flip(bits as byte) == (bits ^ 0xFF) as byte
  {
    assert bits ^ 0xFF == 0xFF - bits;
  }

  lemma FlipNeverFixes(b: byte)
    ensures Flip(b) != b && Flip(Flip(b)) == b
  {
  }

  /** A corrupted file has the length of the original and differs in byte 0 only; doing
      it twice gives the original back. */
  lemma CorruptedDiffersInOneByte(b: Bytes)
    requires b != []
    ensures |Corrupted(b)| == |b| && Corrupted(b)[0] != b[0] && (forall i :: 1 <= i < |b| ==> Corrupted(b)[i] == b[i])
    ensures Corrupted(b) != b && Corrupted(Corrupted(b)) == b
  {
    FlipNeverFixes(b[0]);
    assert Corrupted(b)[1..] == b[1..];
    assert b == [b[0]] + b[1..];
  }

  /** One copy: the bytes read from the source, the file written so far, and how much
      each read and write moves. */
  class Copier {
    var written: Bytes
    var clock: nat
    ghost var faults: nat   // calls that failed so far
    const source: Bytes
    const readSize: nat -> nat
    const writeSize: nat -> int
    const reply: nat -> bool

    constructor (source: Bytes, readSize: nat -> nat, writeSize: nat -> int, reply: nat -> bool)
      ensures this.source == source && this.readSize == readSize && this.writeSize == writeSize && this.reply == reply
      ensures written == [] && faults == 0
    {
      this.source, this.readSize, this.writeSize, this.reply := source, readSize, writeSize, reply;
      written, clock, faults := [], 0, 0;
    }

    method Attempt() returns (ok: bool)
      modifies this`clock, this`faults
      ensures ok == reply(old(clock)) && faults == old(faults) + (if ok then 0 else 1)
    {
      ok := reply(clock);
      clock := clock + 1;
      faults := faults + (if ok then 0 else 1);
    }

    /** `os.read(descriptor, CHUNK)`: at least one byte unless the file has ended. */
    method Read(at: nat) returns (chunk: Bytes)
      requires at <= |source|
      modifies this`clock
      ensures at + |chunk| <= |source| && chunk == source[at..at + |chunk|] && |chunk| <= CHUNK
      ensures chunk == [] <==> at == |source|
    {
      var left := if |source| - at <= CHUNK then |source| - at else CHUNK;
      var n := if 1 <= readSize(clock) <= left then readSize(clock) else left;
      clock := clock + 1;
      return source[at..at + n];
    }

    /** `os.write`: a prefix of what is left, or nothing on failure. */
    method Write(view: Bytes) returns (n: int)
      requires view != []
      modifies this`written, this`clock
      ensures n <= |view|
      ensures written == old(written) + (if n > 0 then view[..n] else [])
      ensures writeSize(old(clock)) > 0 ==> n > 0
    {
      n := if writeSize(clock) > |view| then |view| else writeSize(clock);
      clock := clock + 1;
      if n > 0 {
        written := written + view[..n];
      }
    }

    /** The inner loop: writes all of a chunk in however many pieces. */
    method WriteAll(chunk: Bytes) returns (ok: bool)
      modifies this`written, this`clock
      ensures ok ==> written == old(written) + chunk
      ensures old(written) <= written <= old(written) + chunk
      ensures (forall t :: writeSize(t) > 0) ==> ok
    {
      var done := 0;
      while done < |chunk|
        invariant 0 <= done <= |chunk| && written == old(written) + chunk[..done]
        decreases |chunk| - done
      {
        var n := Write(chunk[done..]);
        if n <= 0 {
          assert written == old(written) + chunk[..done];
          return false;
        }
        assert chunk[..done] + chunk[done..][..n] == chunk[..done + n];
        done := done + n;
      }
      assert chunk[..done] == chunk;
      return true;
    }

    /** `_copy_bounded_regular_file`: whatever the pieces, the copy is the source. */
    method CopyBounded(maximum: nat) returns (ok: bool)
      requires written == []
      modifies this`written, this`clock, this`faults
      ensures ok ==> written == source && |source| <= maximum && faults == old(faults)
      ensures written <= source
      ensures |source| <= maximum && (forall t :: writeSize(t) > 0) && (forall t :: reply(t)) ==> ok
    {
      var seen := Attempt();
      if !seen || |source| > maximum {
        return false;
      }
      var descriptors := Attempt();
      if !descriptors {
        return false;
      }
      var copied := 0;
      while true
        invariant 0 <= copied <= |source| && written == source[..copied] && faults == old(faults)
        decreases |source| - copied
      {
        var chunk := Read(copied);
        if chunk == [] {
          break;
        }
        if copied + |chunk| > maximum {
          return false;
        }
        ghost var before := written;
        assert before + chunk == source[..copied + |chunk|];
        var all := WriteAll(chunk);
        if !all {
          assert written <= source[..copied + |chunk|];
          return false;
        }
        copied := copied + |chunk|;
      }
      var stable := Attempt();
      return stable && copied == |source|;
    }

    /** Reads the first byte of the copy and writes its complement in its place. */
    method CorruptFirst() returns (ok: bool)
      modifies this`written, this`clock, this`faults
      ensures ok ==> old(written) != [] && written == Corrupted(old(written)) && faults == old(faults)
      ensures !ok ==> written == old(written) || (old(written) != [] && written == Corrupted(old(written)))
      ensures old(written) != [] && (forall t :: reply(t)) ==> ok
    {
      var ready := Attempt();
      if !ready || written == [] {
        return false;
      }
      var replaced := Attempt();
      if !replaced {
        return false;
      }
      written := Corrupted(written);
      ok := Attempt();
    }
  }

  // ---- the damaged backup is refused, the good one restores ----

  /** Damage to one byte of the database of a backup that verifies makes it invalid. */
  lemma DamageIsDetected(p: Platform, v: BackupView)
    requires CollisionFree(p) && LoadAndVerify(p, v).Ok? && v.database != []
    ensures LoadAndVerify(p, v.(database := Corrupted(v.database))) == Raise(BackupInvalid)
  {
    hide HeadValid, CatalogWithinLimits, TablesValid, OpenMetadata, Describes, Sha256, CollisionFree;
    CorruptedDiffersInOneByte(v.database);
    if Sha256(p, Corrupted(v.database)) == Sha256(p, v.database) {
      EqualHashesEqualBytes(p, Corrupted(v.database), v.database);
    }
  }

  /** The backup's database is never empty, so there is a byte to damage. */
  lemma VerifiedIsNotEmpty(p: Platform, v: BackupView)
    requires LoadAndVerify(p, v).Ok?
    ensures v.database != []
  {
    hide CatalogWithinLimits, TablesValid, OpenMetadata, Describes, Sha256, VersionsFit, EngineFits;
  }

  /** Whatever fails meanwhile, and whatever is read, a restore from the damaged backup is
      refused and leaves the workspace as it was. */
  method RefuseDamaged(p: Platform, checkpoint: (Bytes, Option<Bytes>, nat) -> CheckpointResult, v: BackupView,
      expected: string, workspace: Store,
                       read: (nat, nat) -> Bytes, reply: nat -> bool, databaseSpill: bool, tempSidecar: bool)
    returns (target: StateDirectory, r: Result<Restoration, Code>)
    requires CollisionFree(p) && Faithful(p, checkpoint) && LoadAndVerify(p, v).Ok?
    ensures r.Raise? && target.store == workspace
  {
    hide LoadAndVerify, CollisionFree, Faithful, Prior, Restored, WalKept, Describing, Logical;
    VerifiedIsNotEmpty(p, v);
    DamageIsDetected(p, v);
    var damaged := v.(database := Corrupted(v.database));
    target := new StateDirectory(workspace, p, checkpoint, _ => damaged, read, reply, databaseSpill, tempSidecar);
    ghost var pinned;
    r, pinned := target.Restore(expected);
    if pinned.Some? {
      target.VerifiedThis(damaged, expected, pinned.value);
    }
  }

  /** The drill in `_execute`: copy and damage a verified backup, see the restore refuse
      it and leave the workspace alone, restore the good backup, and restore it again. */
  method Drill(p: Platform, checkpoint: (Bytes, Option<Bytes>, nat) -> CheckpointResult, v: BackupView,
      expected: string, workspace: Store,
               readSize: nat -> nat, writeSize: nat -> int)
    returns (rejected: Result<Restoration, Code>, afterRejection: Store, first: Result<Restoration, Code>,
        retry: Result<Restoration, Code>, final: Store)
    requires CollisionFree(p) && Faithful(p, checkpoint) && (forall t :: writeSize(t) > 0)
    requires Restorable(p, v, expected, workspace) && (workspace.database.None? ==> workspace.wal.None?)
    requires workspace.database.Some? ==>
            forall t :: LeavesNoLog(workspace, checkpoint(workspace.database.value.bytes, workspace.wal, t))
    requires forall b, t :: p.logical(b, None).Some? ==> checkpoint(b, None, t) == Folded(b, None)
    ensures rejected == Raise(BackupInvalid) && afterRejection == workspace
    ensures first.Ok? && retry.Ok? && !retry.value.changed
    ensures final.database.Some? && final.database.value.bytes == v.database && final.wal.None? && final.temp.None?
  {
    hide LoadAndVerify, HasBytes, Describes, OpenMetadata, Sha256, CollisionFree;
    VerifiedFacts(p, v);
    VerifiedIsNotEmpty(p, v);
    var copier := new Copier(v.database, readSize, writeSize, _ => true);
    var copied := copier.CopyBounded(MAX_DATABASE_BYTES);
    var damaged := copier.CorruptFirst();
    var w := v.(database := copier.written);
    DamageIsDetected(p, v);

    ghost var pinned;
    var refusing := new StateDirectory(workspace, p, checkpoint, _ => w, (t: nat, at: nat) => Piece(w.database, at),
        _ => true, false, false);
    assert refusing.Quiet(w);
    rejected, pinned := refusing.Restore(expected);
    afterRejection := refusing.store;

    var target := new StateDirectory(afterRejection, p, checkpoint, _ => v,
        (t: nat, at: nat) => Piece(v.database, at), _ => true, false, false);
    assert target.Quiet(v) && target.CanFold(workspace);
    first, pinned := target.Restore(expected);
    target.VerifiedThis(v, expected, first.value.manifest);
    SameDatabase(p, first.value.manifest, target.store.database.value.bytes, v);
    ghost var middle := target.store;
    assert Restorable(p, v, expected, middle) && target.CanFold(middle)
        && target.Settled(middle) by { OpensAlone(p, v); }
    retry, pinned := target.Restore(expected);
    final := target.store;
  }

  lemma OpensAlone(p: Platform, v: BackupView)
    requires LoadAndVerify(p, v).Ok?
    ensures p.logical(v.database, None).Some?
  {
    hide LoadAndVerify, MetadataOf, HasBytes;
    VerifiedFacts(p, v);
  }

  lemma SameDatabase(p: Platform, m: Manifest, b: Bytes, v: BackupView)
    requires CollisionFree(p) && HasBytes(p, m, b) && HasBytes(p, m, v.database)
    ensures b == v.database
  {
    EqualHashesEqualBytes(p, b, v.database);
  }
}
