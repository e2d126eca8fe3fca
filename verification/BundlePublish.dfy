/** One run of the bundle publisher against a file system in which every system
    call may fail (tools/local-stack/build_submission_bundle.py).

    `reply(k)` is what the environment answers to the k-th system call: an answer
    of zero or less is an OSError, a positive answer lets the call succeed and, for
    reads and writes, bounds how many bytes it moves. `clock(k)` is the time stamp
    in force. Both are arbitrary, so every contract below holds of every run. */
module BundlePublish {
  import opened Basics
  import opened LocalDisk
  import opened BundleFiles
  import opened BundleState

  datatype OpenResult = Opened(ino: Ino) | AlreadyExists | OsError

  // ---- what a run has done, besides changing the disk ----

  datatype Target = AFile(p: Path) | ADirectory(n: Name) | Local

  /** A verification of the output, a source check that passed, or an fsync, each with the
      disk it met. */
  datatype Step = Verified(at: Disk) | SourceChecked(at: Disk) | Synced(what: Target, at: Disk)

  /** The staged file was synced with these bytes in it. */
  ghost predicate FileSaved(log: seq<Step>, n: Name, bytes: Bytes) {
    exists k :: 0 <= k < |log| && log[k].Synced? && log[k].what == AFile(Under(StageDir, n))
      && IsFile(log[k].at, Under(StageDir, n)) && BytesAt(log[k].at, Under(StageDir, n)) == bytes
  }

  ghost predicate FilesSaved(log: seq<Step>, names: set<Name>, files: map<Name, Bytes>) {
    forall n :: n in names ==> n in files && FileSaved(log, n, files[n])
  }

  ghost predicate HoldsNames(d: Disk, dir: Name, names: set<Name>) {
    dir in d.top && d.top[dir].DirAt? && d.top[dir].children.Keys == names
  }

  /** All five files were synced, and then the staging directory that held them. */
  ghost predicate StageSaved(log: seq<Step>, files: map<Name, Bytes>)
    requires HasFiveFiles(files)
  {
    && FilesSaved(log, OutputNames(), files)
    && (exists k :: 0 <= k < |log| && log[k].Synced? && log[k].what == ADirectory(StageDir)
          && HoldsNames(log[k].at, StageDir, OutputNames()))
  }

  /** The source check passed when the output held every file but the manifest. */
  ghost predicate AskedBeforeManifest(log: seq<Step>) {
    exists k :: 0 <= k < |log| && log[k].SourceChecked?
        && HoldsNames(log[k].at, OutputDir, OutputNames() - {ManifestJson})
  }

  ghost predicate OutputSyncedWith(s: Step, files: map<Name, Bytes>) {
    s.Synced? && s.what == ADirectory(OutputDir) && OutputMatches(s.at, files)
  }

  ghost predicate LocalSyncedWith(s: Step, files: map<Name, Bytes>) {
    s.Synced? && s.what == Local && OutputMatches(s.at, files) && StageDir !in s.at.top
  }

  /** The complete output was synced, and `.local` with no stage in it. */
  ghost predicate OutputSaved(log: seq<Step>, files: map<Name, Bytes>) {
    && (exists k :: 0 <= k < |log| && OutputSyncedWith(log[k], files))
    && (exists k :: 0 <= k < |log| && LocalSyncedWith(log[k], files))
  }

  /** The last three steps: the output, equal to `files` and carrying its own manifest, was
      verified; the source check passed on that very disk; and what is there now was synced. */
  ghost predicate CheckedLast(decode: Bytes -> Option<Manifest>, sha: Bytes -> string, log: seq<Step>,
                              files: map<Name, Bytes>, now: Disk) {
    && |log| >= 3 && log[|log| - 1] == Synced(Local, now)
    && log[|log| - 3].Verified? && log[|log| - 2] == SourceChecked(log[|log| - 3].at)
    && OwnedOutput(decode, sha, log[|log| - 3].at) && Stored(log[|log| - 3].at) == files
  }

  lemma FilesStaySaved(a: seq<Step>, b: seq<Step>, names: set<Name>, files: map<Name, Bytes>)
    requires a <= b
    ensures FilesSaved(a, names, files) ==> FilesSaved(b, names, files)
  {
    assert forall k :: 0 <= k < |a| ==> b[k] == a[k];
    if FilesSaved(a, names, files) {
      forall n | n in names ensures FileSaved(b, n, files[n]) {
        assert FileSaved(a, n, files[n]);
      }
    }
  }

  lemma LogGrows(a: seq<Step>, b: seq<Step>, files: map<Name, Bytes>)
    requires a <= b
    ensures HasFiveFiles(files) && StageSaved(a, files) ==> StageSaved(b, files)
    ensures AskedBeforeManifest(a) ==> AskedBeforeManifest(b)
    ensures OutputSaved(a, files) ==> OutputSaved(b, files)
  {
    hide OutputNames, OutputMatches, HoldsNames, HasFiveFiles, OutputSaved, FilesSaved;
    assert forall k :: 0 <= k < |a| ==> b[k] == a[k];
    FilesStaySaved(a, b, OutputNames(), files);
    OutputStaysSaved(a, b, files);
  }

  lemma OutputStaysSaved(a: seq<Step>, b: seq<Step>, files: map<Name, Bytes>)
    requires a <= b
    ensures OutputSaved(a, files) ==> OutputSaved(b, files)
  {
    hide OutputMatches;
    assert forall k :: 0 <= k < |a| ==> b[k] == a[k];
  }

  lemma JustSaved(log: seq<Step>, names: set<Name>, d: Disk, owned: map<Name, FileIdentity>, files: map<Name, Bytes>,
      n: Name)
    requires FilesSaved(log, names, files) && Recorded(d, StageDir, owned, files) && n in owned
    ensures FilesSaved(log + [Synced(AFile(Under(StageDir, n)), d)], names + {n}, files)
  {
    var log' := log + [Synced(AFile(Under(StageDir, n)), d)];
    FilesStaySaved(log, log', names, files);
    assert log'[|log|] == Synced(AFile(Under(StageDir, n)), d);
  }

  lemma NoneSaved(log: seq<Step>, files: map<Name, Bytes>)
    ensures FilesSaved(log, Prefix(0), files)
  {
  }

  lemma StageJustSaved(log: seq<Step>, d: Disk, owned: map<Name, FileIdentity>, files: map<Name, Bytes>)
    requires log != [] && log[|log| - 1] == Synced(ADirectory(StageDir), d) && HasFiveFiles(files)
    requires Recorded(d, StageDir, owned, files) && owned.Keys == OutputNames()
    requires FilesSaved(log, OutputNames(), files)
    ensures StageSaved(log, files)
  {
    hide FilesSaved;
    assert HoldsNames(log[|log| - 1].at, StageDir, OutputNames());
  }

  lemma JustAsked(log: seq<Step>, d: Disk, owned: map<Name, FileIdentity>, files: map<Name, Bytes>)
    requires log != [] && log[|log| - 1] == SourceChecked(d)
    requires Recorded(d, OutputDir, owned, files) && owned.Keys == Prefix(4)
    ensures AskedBeforeManifest(log)
  {
    hide OutputNames, Prefix;
    FirstFour();
    assert HoldsNames(log[|log| - 1].at, OutputDir, OutputNames() - {ManifestJson});
  }

  lemma FirstFour()
    ensures Prefix(4) == OutputNames() - {ManifestJson}
  {
    hide Prefix;
    PrefixAll();
    PrefixStep(4);
    assert OUTPUT_FILENAMES[4] == ManifestJson;
  }

  lemma ManifestIsLast(i: nat)
    requires i < 5
    ensures OUTPUT_FILENAMES[i] == ManifestJson <==> i == 4
  {
  }

  lemma OutputJustSaved(log: seq<Step>, d: Disk, files: map<Name, Bytes>)
    requires |log| >= 2 && log[|log| - 2] == Synced(ADirectory(OutputDir), d) && log[|log| - 1] == Synced(Local, d)
    requires OutputMatches(d, files) && StageDir !in d.top
    ensures OutputSaved(log, files)
  {
    hide OutputMatches;
  }

  /** The output was verified and then the source checked, on this disk. */
  ghost predicate JustChecked(log: seq<Step>, d: Disk) {
    |log| >= 2 && log[|log| - 2] == Verified(d) && log[|log| - 1] == SourceChecked(d)
  }

  class FileSystem {
    var disk: Disk
    var calls: nat
    ghost var faults: nat     // calls that failed so far
    ghost var log: seq<Step>
    const reply: nat -> int
    const clock: nat -> int
    const decode: Bytes -> Option<Manifest>
    const sha: Bytes -> string
    const sourceSame: nat -> bool   // what a source check finds

    constructor (disk: Disk, reply: nat -> int, clock: nat -> int, decode: Bytes -> Option<Manifest>,
                 sha: Bytes -> string, sourceSame: nat -> bool)
      requires Consistent(disk)
      ensures Valid() && this.disk == disk && calls == 0 && faults == 0 && log == [] && this.sourceSame == sourceSame
      ensures this.reply == reply && this.clock == clock && this.decode == decode && this.sha == sha
    {
      this.disk, calls, this.reply, this.clock, this.decode, this.sha := disk, 0, reply, clock, decode, sha;
      this.sourceSame, faults, log := sourceSame, 0, [];
    }

    ghost predicate Valid()
      reads this
    {
      Consistent(disk)
    }

    /** No system call fails in this run. */
    ghost predicate Faultless() {
      forall k: nat :: reply(k) > 0
    }

    /** The source is the same whenever it is checked. */
    ghost predicate Steady() {
      forall k: nat :: sourceSame(k)
    }

    /** It never is. */
    ghost predicate Changed() {
      forall k: nat :: !sourceSame(k)
    }

    // ---- system calls ----

    method Call() returns (answer: int, stamp: int)
      modifies this`calls, this`faults
      ensures answer == reply(old(calls)) && stamp == clock(old(calls)) && calls == old(calls) + 1
      ensures faults == old(faults) + (if answer > 0 then 0 else 1)
    {
      answer, stamp := reply(calls), clock(calls);
      calls := calls + 1;
      faults := faults + (if answer > 0 then 0 else 1);
    }

    /** fsync of a file or a directory. */
    method Sync(what: Target) returns (ok: bool)
      modifies this`calls, this`faults, this`log
      ensures log == if ok then old(log) + [Synced(what, disk)] else old(log)
      ensures ok ==> faults == old(faults)
      ensures Faultless() ==> ok
    {
      var answer, _ := Call();
      ok := answer > 0;
      if ok {
        log := log + [Synced(what, disk)];
      }
    }

    /** `source_check()`, which raises when the source is not what it was. */
    method CheckSource() returns (same: bool)
      modifies this`calls, this`log
      ensures same == sourceSame(old(calls)) && (same ==> !Changed()) && (!same ==> !Steady())
      ensures log == if same then old(log) + [SourceChecked(disk)] else old(log)
    {
      same := sourceSame(calls);
      calls := calls + 1;
      if same {
        log := log + [SourceChecked(disk)];
      }
    }

    method OpenExclusive(p: Path) returns (r: OpenResult)
      requires Valid()
      modifies this
      ensures Valid()
      ensures r.Opened? ==> AddsFile(old(disk), disk, p) && Lookup(disk, p) == Some(r.ino)
      ensures r.Opened? ==> disk.nodes[r.ino].regular && disk.nodes[r.ino].links == 1 && disk.nodes[r.ino].bytes == []
      ensures !r.Opened? ==> disk == old(disk)
      ensures r.AlreadyExists? ==> Exists(disk, p)
      ensures log == old(log) && (r.Opened? ==> faults == old(faults))
      ensures Faultless() && HasParent(old(disk), p) ==> if Exists(old(disk), p) then r.AlreadyExists? else r.Opened?
    {
      var answer, stamp := Call();
      if answer <= 0 || !HasParent(disk, p) {
        return OsError;
      }
      if Exists(disk, p) {
        return AlreadyExists;
      }
      assert Above(disk.nodes.Keys) !in disk.nodes;
      var ino: Ino :| ino !in disk.nodes;
      CreateConserves(disk, p, ino, stamp);
      disk := CreateFile(disk, p, ino, stamp);
      r := Opened(ino);
    }

    /** os.write: moves at most what the environment allows, possibly nothing. */
    method Write(ino: Ino, chunk: Bytes) returns (written: int)
      requires Valid() && ino in disk.nodes
      modifies this
      ensures Valid()
      ensures written <= |chunk|
      ensures log == old(log) && (written > 0 ==> faults == old(faults))
      ensures written <= 0 ==> disk == old(disk)
      ensures written > 0 ==> disk.top == old(disk).top && ino in disk.nodes
      ensures written > 0 ==> disk.nodes == old(disk).nodes[ino := disk.nodes[ino]]
      ensures written > 0 ==> disk.nodes[ino].bytes == old(disk).nodes[ino].bytes + chunk[..written]
      ensures written > 0 ==>
              disk.nodes[ino].regular == old(disk).nodes[ino].regular
              && disk.nodes[ino].links == old(disk).nodes[ino].links
      ensures Faultless() && chunk != [] ==> written > 0
    {
      var answer, stamp := Call();
      written := if answer < |chunk| then answer else |chunk|;
      if written > 0 {
        AppendConserves(disk, ino, chunk[..written], stamp);
        disk := Append(disk, ino, chunk[..written], stamp);
      }
    }

    /** os.read at `offset`: an error, or between one and `want` bytes, or end of file. */
    method Read(ino: Ino, offset: nat, want: nat) returns (failed: bool, chunk: Bytes)
      requires ino in disk.nodes && offset <= |disk.nodes[ino].bytes| && want > 0
      modifies this`calls, this`faults
      ensures |chunk| <= want && offset + |chunk| <= |disk.nodes[ino].bytes|
      ensures chunk == disk.nodes[ino].bytes[offset..offset + |chunk|]
      ensures !failed ==> (chunk == [] <==> offset == |disk.nodes[ino].bytes|)
      ensures Faultless() ==> !failed
      ensures !failed ==> faults == old(faults)
    {
      var answer, _ := Call();
      if answer <= 0 {
        return true, [];
      }
      var remaining := |disk.nodes[ino].bytes| - offset;
      var size := if answer < want then answer else want;
      size := if size < remaining then size else remaining;
      return false, disk.nodes[ino].bytes[offset..offset + size];
    }

    /** Opening, closing or listing: succeeds or not, changes nothing. */
    method Attempt() returns (ok: bool)
      modifies this`calls, this`faults
      ensures Faultless() ==> ok
      ensures ok ==> faults == old(faults)
    {
      var answer, _ := Call();
      ok := answer > 0;
    }

    /** Creates `.local/n`; `clash` tells FileExistsError from other errors. */
    method Mkdir(n: Name) returns (ok: bool, clash: bool, id: DirId)
      requires Valid()
      modifies this
      ensures Valid()
      ensures ok ==> n !in old(disk).top && disk == MakeDir(old(disk), n, id)
      ensures !ok ==> disk == old(disk)
      ensures Faultless() ==> ok == (n !in old(disk).top)
      ensures log == old(log) && (ok ==> faults == old(faults))
    {
      var answer, stamp := Call();
      clash := n in disk.top;
      ok, id := answer > 0 && !clash, calls;
      if ok {
        DirEditsConserve(disk, n, id);
        disk := MakeDir(disk, n, id);
      }
    }

    method Rmdir(n: Name) returns (ok: bool)
      requires Valid() && n in disk.top && disk.top[n].DirAt?
      modifies this
      ensures Valid()
      ensures ok ==> old(disk).top[n].children == map[] && disk == old(disk).(top := old(disk).top - {n})
      ensures !ok ==> disk == old(disk)
      ensures Faultless() && old(disk).top[n].children == map[] ==> ok
      ensures log == old(log) && (ok ==> faults == old(faults))
    {
      var answer, _ := Call();
      ok := answer > 0 && disk.top[n].children == map[];
      if ok {
        DirEditsConserve(disk, n, 0);
        disk := RemoveDir(disk, n);
      }
    }

    method Link(source: Path, target: Path) returns (ok: bool)
      requires Valid() && HasParent(disk, target)
      modifies this
      ensures Valid()
      ensures ok ==> IsFile(old(disk), source) && Vacant(old(disk), target)
      ensures ok ==> disk == AddLink(old(disk), source, target, clock(old(calls)))
      ensures !ok ==> disk == old(disk)
      ensures Faultless() && IsFile(old(disk), source) && Vacant(old(disk), target) ==> ok
      ensures log == old(log) && (ok ==> faults == old(faults))
    {
      var answer, stamp := Call();
      ok := answer > 0 && IsFile(disk, source) && Vacant(disk, target);
      if ok {
        AddLinkConserves(disk, source, target, stamp);
        disk := AddLink(disk, source, target, stamp);
      }
    }

    method Unlink(p: Path) returns (ok: bool)
      requires Valid() && IsFile(disk, p)
      modifies this
      ensures Valid()
      ensures disk == if ok then RemoveLink(old(disk), p, clock(old(calls))) else old(disk)
      ensures Faultless() ==> ok
      ensures log == old(log) && (ok ==> faults == old(faults))
    {
      var answer, stamp := Call();
      ok := answer > 0;
      if ok {
        RemoveLinkConserves(disk, p, stamp);
        disk := RemoveLink(disk, p, stamp);
      }
    }

    // ---- the builder's helpers ----

    /** Reads a whole file through short reads; refuses a file longer than `maximum`
        or with more than one link. */
    method ReadBoundFile(p: Path, maximum: nat) returns (r: Result<(Bytes, FileIdentity), ErrorCode>)
      modifies this`calls, this`faults
      ensures r.Ok? ==> Readable(disk, p, maximum) && r.value.0 == BytesAt(disk, p)
      ensures r.Ok? ==> OwnedFile(disk, p, r.value.1, 1)
      ensures r.Raise? ==> r.error == WorkspaceUnsafe
      ensures r.Ok? ==> faults == old(faults)
      ensures Faultless() && Readable(disk, p, maximum) ==> r.Ok?
    {
      var open := Attempt();
      if !open || Lookup(disk, p).None? || Lookup(disk, p).value !in disk.nodes {
        return Raise(WorkspaceUnsafe);
      }
      var ino := Lookup(disk, p).value;
      if !disk.nodes[ino].regular || disk.nodes[ino].links != 1 || |disk.nodes[ino].bytes| > maximum {
        return Raise(WorkspaceUnsafe);
      }
      var data: Bytes := [];
      var failed := false;
      while true
        invariant |data| <= |disk.nodes[ino].bytes| && data == disk.nodes[ino].bytes[..|data|]
        invariant !failed && faults == old(faults)
        decreases |disk.nodes[ino].bytes| - |data|
      {
        var chunk;
        var want := if maximum + 1 - |data| < 65536 then maximum + 1 - |data| else 65536;
        failed, chunk := Read(ino, |data|, want);
        if failed || chunk == [] {
          break;
        }
        data := data + chunk;
      }
      var closed := Attempt();
      if failed || !closed {
        return Raise(WorkspaceUnsafe);
      }
      r := Ok((data, Identity(disk, ino)));
    }

    /** Creates a file that must not exist and fills it through short writes. When it
        fails after the open, the partly written file stays behind, unrecorded. */
    method ExclusiveWrite(p: Path, payload: Bytes, existsCode: ErrorCode) returns (r: Result<FileIdentity, ErrorCode>)
      requires Valid()
      modifies this
      ensures Valid()
      ensures r.Ok? ==> AddsFile(old(disk), disk, p) && OwnedFile(disk, p, r.value, 1) && BytesAt(disk, p) == payload
      ensures r.Raise? ==> disk == old(disk) || AddsFile(old(disk), disk, p)
      ensures r.Raise? ==> r.error in {existsCode, WorkspaceUnsafe, BundleWriteFailed}
      ensures r.Raise? && disk != old(disk) ==> r.error in {WorkspaceUnsafe, BundleWriteFailed}
      ensures r.Ok? ==> log == old(log) + [Synced(AFile(p), disk)] && faults == old(faults)
      ensures old(log) <= log
      ensures Faultless() && HasParent(old(disk), p) ==> (r.Ok? <==> !Exists(old(disk), p))
      ensures Faultless() && HasParent(old(disk), p) && r.Raise? ==> r.error == existsCode && disk == old(disk)
    {
      var o := OpenExclusive(p);
      if o.AlreadyExists? {
        return Raise(existsCode);
      }
      if o.OsError? {
        return Raise(BundleWriteFailed);
      }
      var offset, failed := 0, false;
      while offset < |payload| && !failed
        invariant Valid()
        invariant 0 <= offset <= |payload|
        invariant AddsFile(old(disk), disk, p) && Lookup(disk, p) == Some(o.ino)
        invariant disk.nodes[o.ino].regular && disk.nodes[o.ino].links == 1
        invariant disk.nodes[o.ino].bytes == payload[..offset]
        invariant (Faultless() ==> !failed) && log == old(log) && (!failed ==> faults == old(faults))
        decreases |payload| - offset, !failed
      {
        var written := Write(o.ino, payload[offset..]);
        if written <= 0 {
          failed := true;
        } else {
          assert payload[..offset] + payload[offset..][..written] == payload[..offset + written];
          offset := offset + written;
        }
      }
      if !failed {
        var synced := Sync(AFile(p));
        failed := !synced;
      }
      var closed := Attempt();
      if failed || !closed {
        return Raise(BundleWriteFailed);
      }
      assert disk.nodes[o.ino].bytes == payload;
      var readback := ReadBoundFile(p, |payload|);
      if readback.Raise? || readback.value.0 != payload || readback.value.1 != Identity(disk, o.ino) {
        return Raise(WorkspaceUnsafe);
      }
      r := Ok(readback.value.1);
    }

    method AcquireLock() returns (r: Result<FileIdentity, ErrorCode>)
      requires Valid()
      modifies this
      ensures Valid()
      ensures r.Ok? ==> AddsFile(old(disk), disk, Top(LockFile)) && OwnedFile(disk, Top(LockFile), r.value, 1)
      ensures r.Ok? ==> BytesAt(disk, Top(LockFile)) == LOCK_BYTES
      ensures r.Ok? ==> log == old(log) + [Synced(AFile(Top(LockFile)), disk)] && faults == old(faults)
      ensures old(log) <= log
      ensures r.Raise? ==> disk == old(disk) || (r.error == CleanupFailed && AddsFile(old(disk), disk, Top(LockFile)))
      ensures r.Raise? && r.error == CleanupFailed ==> LockFile !in old(disk).top && LockFile in disk.top
      ensures Faultless() ==> (r.Ok? <==> LockFile !in old(disk).top)
      ensures Faultless() && r.Raise? ==> disk == old(disk)
      ensures Faultless() && r.Raise? ==> r.error == if LockHeld(disk) then BuildInProgress else WorkspaceUnsafe
    {
      if Exists(disk, Top(LockFile)) {
        var held := ReadBoundFile(Top(LockFile), |LOCK_BYTES|);
        if held.Raise? || held.value.0 != LOCK_BYTES {
          return Raise(WorkspaceUnsafe);
        }
        return Raise(BuildInProgress);
      }
      r := ExclusiveWrite(Top(LockFile), LOCK_BYTES, BuildInProgress);
      if r.Raise? && r.error != BuildInProgress && Exists(disk, Top(LockFile)) {
        r := Raise(CleanupFailed);
      }
    }

    /** Unlinks `p` only if it is still exactly the file the caller remembers. */
    method SafeUnlink(p: Path, expected: FileIdentity, links: nat) returns (ok: bool)
      requires Valid()
      modifies this
      ensures Valid()
      ensures ok ==> OwnedFile(old(disk), p, expected, links) && disk == RemoveLink(old(disk), p, clock(old(calls)))
      ensures !ok ==> disk == old(disk)
      ensures Faultless() ==> ok == OwnedFile(old(disk), p, expected, links)
      ensures log == old(log) && (ok ==> faults == old(faults))
    {
      var found := Lookup(disk, p);
      if found.None? || found.value !in disk.nodes {
        return false;
      }
      var node := disk.nodes[found.value];
      if !node.regular || node.links != links || found.value != expected.ino || |node.bytes| != expected.size
          || node.mtime != expected.mtime || node.ctime != expected.ctime {
        return false;
      }
      ok := Unlink(p);
    }

    /** Deletes a directory only if everything in it is on record, file by file. */
    method CleanupOwnedDirectory(n: Name, expected: Option<DirId>, owned: map<Name, FileIdentity>) returns (ok: bool)
      requires Valid()
      modifies this
      ensures Valid()
      ensures expected.None? ==> ok && disk == old(disk)
      ensures expected.Some? && ok ==> RemovedOwned(old(disk), disk, n, expected.value, owned)
      ensures TouchedOnly(old(disk), disk, n, owned)
      ensures log == old(log)
      ensures Faultless() && expected.Some? && AllOwned(old(disk), n, expected.value, owned) ==> ok
    {
      if expected.None? {
        return true;
      }
      var listed := Attempt();
      if !listed || !IsDir(disk, n, expected.value) || !(disk.top[n].children.Keys <= owned.Keys) {
        return false;
      }
      ghost var d0 := disk;
      var todo := disk.top[n].children.Keys;
      CleanupStart(d0, n);
      while todo != {}
        invariant Valid()
        invariant CleanedUpTo(d0, disk, n, todo, owned)
        invariant disk.top[n].DirAt? && log == old(log)
        decreases |todo|
      {
        var m :| m in todo;
        CleanupKeepsRest(d0, disk, n, todo, m, owned);
        ghost var before, stamp := disk, clock(calls);
        var gone := SafeUnlink(Under(n, m), owned[m], 1);
        if !gone {
          CleanupTouched(d0, disk, n, todo, owned);
          return false;
        }
        CleanupStep(d0, before, n, todo, m, owned, stamp);
        todo := todo - {m};
      }
      CleanupTouched(d0, disk, n, todo, owned);
      CleanupEnd(d0, disk, n, owned);
      ok := Rmdir(n);
    }

    method ReadRecords(records: seq<Record>) returns (ok: bool, payloads: seq<Bytes>)
      modifies this`calls, this`faults
      ensures ok ==> |payloads| == |records| && forall k :: 0 <= k < |records| ==>
                RecordStored(disk, sha, records[k]) && payloads[k] == BytesAt(disk, Under(OutputDir, records[k].name))
      ensures Faultless() && (forall k :: 0 <= k < |records| ==> RecordStored(disk, sha, records[k])) ==> ok
      ensures ok ==> faults == old(faults)
    {
      payloads := [];
      for i := 0 to |records|
        invariant |payloads| == i && faults == old(faults)
        invariant forall k :: 0 <= k < i ==>
          RecordStored(disk, sha, records[k]) && payloads[k] == BytesAt(disk, Under(OutputDir, records[k].name))
      {
        var payload := ReadBoundFile(Under(OutputDir, records[i].name), OUTPUT_FILE_MAX_BYTES);
        if payload.Raise? || |payload.value.0| != records[i].bytes || sha(payload.value.0) != records[i].sha256 {
          return false, payloads;
        }
        payloads := payloads + [payload.value.0];
      }
      ok := true;
    }

    /** Accepts an output directory only if it carries its own valid manifest and
        every byte equals what this build would write. */
    method VerifyExistingOutput(expected: map<Name, Bytes>) returns (r: Result<(), ErrorCode>)
      requires HasFiveFiles(expected)
      modifies this`calls, this`faults, this`log
      ensures r.Ok? ==> log == old(log) + [Verified(disk)] && faults == old(faults)
      ensures old(log) <= log
      ensures r.Ok? ==> OwnedOutput(decode, sha, disk) && Stored(disk) == expected
      ensures r.Raise? ==> r.error == WorkspaceNotOwned || r.error == BundleContractFailed
      ensures r == Raise(BundleContractFailed) ==> OwnedOutput(decode, sha, disk) && Stored(disk) != expected
      ensures Faultless() && OwnedOutput(decode, sha, disk) ==>
              r == if Stored(disk) == expected then Ok(()) else Raise(BundleContractFailed)
    {
      hide ParseOwnedManifest, CleanText, RecordAccepted, ManifestDescribes, Identity, OwnedFile;
      var listed := Attempt();
      if !listed || OutputDir !in disk.top || !disk.top[OutputDir].DirAt?
          || disk.top[OutputDir].children.Keys != OutputNames() {
        return Raise(WorkspaceNotOwned);
      }
      var blob := ReadBoundFile(Under(OutputDir, ManifestJson), OUTPUT_FILE_MAX_BYTES);
      if blob.Raise? {
        return Raise(WorkspaceNotOwned);
      }
      OwnedOutputIs(decode, sha, disk);
      var manifest := ParseManifest(decode, blob.value.0);
      if manifest.None? {
        return Raise(WorkspaceNotOwned);
      }
      var read, payloads := ReadRecords(manifest.value.files);
      if !read {
        return Raise(WorkspaceNotOwned);
      }
      StoredIs(disk, expected);
      var relisted := Attempt();
      if !relisted {
        return Raise(WorkspaceNotOwned);
      }
      if blob.value.0 != expected[ManifestJson] || exists k :: 0 <= k < 4 && payloads[k] != expected[PAYLOAD_NAMES[k]] {
        return Raise(BundleContractFailed);
      }
      log := log + [Verified(disk)];
      r := Ok(());
    }

    method StageOne(ghost d1: Disk, name: Name, files: map<Name, Bytes>, s: Session)
      returns (failure: Option<ErrorCode>, s': Session)
      requires Valid() && name in files && name !in s.stageFiles
      requires InProgress(d1, disk, s) && s.stage.Some?
      requires Recorded(disk, StageDir, s.stageFiles, files)
      modifies this
      ensures Valid()
      ensures InProgress(d1, disk, s') && s'.stage == s.stage && s'.output == s.output
      ensures s'.outputFiles == s.outputFiles
      ensures failure.None? ==>
              Recorded(disk, StageDir, s'.stageFiles, files) && s'.stageFiles.Keys == s.stageFiles.Keys + {name}
      ensures failure.Some? ==> failure.value in {WorkspaceUnsafe, BundleWriteFailed}
      ensures Faultless() ==> failure.None?
      ensures old(log) <= log
      ensures failure.None? ==> faults == old(faults) && log == old(log) + [Synced(AFile(Under(StageDir, name)), disk)]
    {
      hide Consistent, InProgress, Recorded;
      RoomToStage(d1, disk, s, files, name);
      ghost var before := disk;
      var written := ExclusiveWrite(Under(StageDir, name), files[name], WorkspaceUnsafe);
      if disk != before {
        StageStep(d1, before, disk, s, name);
      }
      if written.Raise? {
        return Some(written.error), s;
      }
      StageStepRecorded(before, disk, s.stageFiles, files, name, written.value);
      RecordStaged(d1, disk, s, name, written.value);
      return None, s.(stageFiles := s.stageFiles[name := written.value]);
    }

    method StageFiles(files: map<Name, Bytes>) returns (failure: Option<ErrorCode>, s: Session)
      requires Valid() && HasFiveFiles(files)
      requires StageDir !in disk.top && OutputDir !in disk.top
      modifies this
      ensures Valid()
      ensures InProgress(old(disk), disk, s) && s.output.None? && s.outputFiles == map[]
      ensures failure.None? ==> Recorded(disk, StageDir, s.stageFiles, files) && s.stageFiles.Keys == OutputNames()
      ensures failure.Some? ==> failure.value in {WorkspaceUnsafe, BundleWriteFailed}
      ensures Faultless() ==> failure.None?
      ensures failure.None? ==> s.stage.Some? && faults == old(faults) && StageSaved(log, files)
    {
      hide Consistent, Recorded, InProgress, FilesSaved, StageSaved;
      assert FilesSaved(log, Prefix(0), files) by { NoneSaved(log, files); }
      ghost var d1 := disk;
      SessionStart(d1, 0, files);
      s := NO_SESSION;
      var made, clash, id := Mkdir(StageDir);
      if !made {
        return Some(if clash then WorkspaceUnsafe else BundleWriteFailed), s;
      }
      s := s.(stage := Some(id));
      SessionStart(d1, id, files);
      for i := 0 to 5
        invariant Valid()
        invariant InProgress(d1, disk, s) && s.stage.Some? && s.output.None? && s.outputFiles == map[]
        invariant Recorded(disk, StageDir, s.stageFiles, files) && s.stageFiles.Keys == Prefix(i)
        invariant faults == old(faults) && FilesSaved(log, Prefix(i), files)
      {
        var name := OUTPUT_FILENAMES[i];
        PrefixStep(i);
        var failed;
        ghost var before := log;
        failed, s := StageOne(d1, name, files, s);
        if failed.Some? {
          return failed, s;
        }
        JustSaved(before, Prefix(i), disk, s.stageFiles, files, name);
      }
      PrefixAll();
      failure := SyncStage(s.stageFiles, files);
    }

    /** Lists the staging directory and syncs it. */
    method SyncStage(ghost owned: map<Name, FileIdentity>, ghost files: map<Name, Bytes>)
      returns (failure: Option<ErrorCode>)
      requires HasFiveFiles(files) && Recorded(disk, StageDir, owned, files) && owned.Keys == OutputNames()
      requires FilesSaved(log, OutputNames(), files)
      modifies this`calls, this`faults, this`log
      ensures failure.None? ==> StageSaved(log, files) && faults == old(faults)
      ensures failure.Some? ==> failure.value in {WorkspaceUnsafe, BundleWriteFailed}
      ensures Faultless() ==> failure.None?
    {
      hide Recorded, FilesSaved, StageSaved, OutputNames;
      var listed := Attempt();
      if !listed {
        return Some(WorkspaceUnsafe);
      }
      ghost var before := log;
      var synced := Sync(ADirectory(StageDir));
      if synced {
        FilesStaySaved(before, log, OutputNames(), files);
        StageJustSaved(log, disk, owned, files);
      }
      return if synced then None else Some(BundleWriteFailed);
    }

    /** Moves one staged file into the output directory: link, unlink, read back. */
    method PublishOne(ghost d1: Disk, name: Name, files: map<Name, Bytes>, s: Session)
      returns (failure: Option<ErrorCode>, s': Session)
      requires Valid() && name in s.stageFiles && name !in s.outputFiles
      requires InProgress(d1, disk, s) && s.stage.Some? && s.output.Some?
      requires Recorded(disk, StageDir, s.stageFiles, files) && Recorded(disk, OutputDir, s.outputFiles, files)
      modifies this
      ensures Valid()
      ensures InProgress(d1, disk, s') && s'.stage == s.stage && s'.output == s.output
      ensures failure.None? ==>
              Recorded(disk, StageDir, s'.stageFiles, files) && Recorded(disk, OutputDir, s'.outputFiles, files)
      ensures failure.None? ==>
              s'.stageFiles.Keys == s.stageFiles.Keys - {name} && s'.outputFiles.Keys == s.outputFiles.Keys + {name}
      ensures failure.Some? ==> failure.value in {WorkspaceUnsafe, BundleWriteFailed}
      ensures Faultless() && |files[name]| <= OUTPUT_FILE_MAX_BYTES ==> failure.None?
      ensures log == old(log) && (failure.None? ==> faults == old(faults))
    {
      hide Consistent, InProgress, Recorded;
      var source, target := Under(StageDir, name), Under(OutputDir, name);
      ghost var d, t := disk, clock(calls);
      ReadyToLink(d, s.stageFiles, s.outputFiles, files, name);
      LinkStep(d1, d, s, name, t);
      var linked := Link(source, target);
      if !linked {
        return Some(BundleWriteFailed), s;
      }
      ghost var d2, t2 := disk, clock(calls);
      PublishStepRecorded(d, name, t, t2, s.stageFiles, s.outputFiles, files);
      UnstageStep(d1, d2, s, name, t2);
      var identity := Identity(disk, Lookup(disk, source).value);
      if !OwnedFile(disk, target, identity, 2) {
        return Some(WorkspaceUnsafe), s;
      }
      var unlinked := SafeUnlink(source, identity, 2);
      if !unlinked {
        return Some(WorkspaceUnsafe), s;
      }
      var readback := ReadBoundFile(target, OUTPUT_FILE_MAX_BYTES);
      if readback.Raise? || readback.value.0 != files[name] || !SameIdentityObject(identity, readback.value.1) {
        return Some(WorkspaceUnsafe), s;
      }
      RecordPublished(d1, disk, s, name, readback.value.1);
      s' := s.(outputFiles := s.outputFiles[name := readback.value.1], stageFiles := s.stageFiles - {name});
      return None, s';
    }

    method LinkFiles(ghost d1: Disk, files: map<Name, Bytes>, s0: Session)
      returns (failure: Option<ErrorCode>, s: Session)
      requires Valid() && HasFiveFiles(files)
      requires InProgress(d1, disk, s0) && s0.stage.Some? && s0.output.None? && s0.outputFiles == map[]
      requires Recorded(disk, StageDir, s0.stageFiles, files) && s0.stageFiles.Keys == OutputNames()
      modifies this
      ensures Valid()
      ensures InProgress(d1, disk, s) && s.stage == s0.stage
      ensures failure.None? ==>
              s.output.Some? && Recorded(disk, StageDir, s.stageFiles, files) && s.stageFiles.Keys == {}
      ensures failure.None? ==> Recorded(disk, OutputDir, s.outputFiles, files) && s.outputFiles.Keys == OutputNames()
      ensures failure.Some? ==> failure.value != CleanupFailed
      ensures Faultless() && (forall n :: n in files ==> |files[n]| <= OUTPUT_FILE_MAX_BYTES) ==>
                failure.None? || OnlySourceChanged(failure, disk, s)
      ensures old(log) <= log
      ensures failure.None? ==> faults == old(faults) && AskedBeforeManifest(log)
    {
      s := s0;
      OutputStart(d1, disk, s, calls, files);
      var made, clash, id := Mkdir(OutputDir);
      if !made {
        return Some(if clash then WorkspaceNotOwned else BundleWriteFailed), s;
      }
      OutputStart(d1, old(disk), s, id, files);
      failure, s := LinkEach(d1, files, s.(output := Some(id)));
    }

    method LinkEach(ghost d1: Disk, files: map<Name, Bytes>, s0: Session)
      returns (failure: Option<ErrorCode>, s: Session)
      requires Valid() && HasFiveFiles(files)
      requires InProgress(d1, disk, s0) && s0.stage.Some? && s0.output.Some? && s0.outputFiles == map[]
      requires Recorded(disk, StageDir, s0.stageFiles, files) && s0.stageFiles.Keys == OutputNames()
      requires Recorded(disk, OutputDir, s0.outputFiles, files)
      modifies this
      ensures Valid()
      ensures InProgress(d1, disk, s) && s.stage == s0.stage && s.output == s0.output
      ensures failure.None? ==> Recorded(disk, StageDir, s.stageFiles, files) && s.stageFiles.Keys == {}
      ensures failure.None? ==> Recorded(disk, OutputDir, s.outputFiles, files) && s.outputFiles.Keys == OutputNames()
      ensures failure.Some? ==> failure.value != CleanupFailed
      ensures Faultless() && (forall n :: n in files ==> |files[n]| <= OUTPUT_FILE_MAX_BYTES) ==>
                failure.None? || OnlySourceChanged(failure, disk, s)
      ensures old(log) <= log
      ensures failure.None? ==> faults == old(faults) && AskedBeforeManifest(log)
    {
      hide Consistent, InProgress, Recorded, OutputNames, Prefix, Remaining, AskedBeforeManifest, Tidy;
      s := s0;
      PrefixAll();
      for i := 0 to 5
        invariant Valid()
        invariant InProgress(d1, disk, s) && s.stage == s0.stage && s.output == s0.output
        invariant Recorded(disk, StageDir, s.stageFiles, files) && Recorded(disk, OutputDir, s.outputFiles, files)
        invariant s.stageFiles.Keys == Remaining(i) && s.outputFiles.Keys == Prefix(i)
        invariant faults == old(faults) && old(log) <= log && (i == 5 ==> AskedBeforeManifest(log))
      {
        var name := OUTPUT_FILENAMES[i];
        PrefixStep(i);
        RemainingStep(i);
        if name == ManifestJson {
          var sourceUnchanged := CheckSource();
          if !sourceUnchanged {
            RecordedTidy(d1, disk, s, files);
            return Some(SourceChanged), s;
          }
          ManifestIsLast(i);
          JustAsked(log, disk, s.outputFiles, files);
        }
        assert i == 4 ==> AskedBeforeManifest(log) by { ManifestIsLast(i); }
        var failed;
        failed, s := PublishOne(d1, name, files, s);
        if failed.Some? {
          return failed, s;
        }
      }
      PrefixAll();
      return None, s;
    }

    /** Removes the empty stage and syncs the output and `.local`. */
    method RemoveStage(ghost d1: Disk, files: map<Name, Bytes>, s0: Session)
      returns (failure: Option<ErrorCode>, s: Session)
      requires Valid() && InProgress(d1, disk, s0) && s0.stage.Some?
      requires Recorded(disk, StageDir, s0.stageFiles, files) && s0.stageFiles.Keys == {}
      requires Recorded(disk, OutputDir, s0.outputFiles, files)
      modifies this
      ensures Valid()
      ensures InProgress(d1, disk, s) && old(log) <= log
      ensures failure.None? ==> s == s0.(stage := None) && Recorded(disk, OutputDir, s.outputFiles, files)
      ensures failure.None? ==> StageDir !in disk.top && faults == old(faults)
      ensures failure.None? ==> log == old(log) + [Synced(ADirectory(OutputDir), disk), Synced(Local, disk)]
      ensures failure.Some? ==> failure.value in {WorkspaceUnsafe, BundleWriteFailed}
      ensures Faultless() ==> failure.None?
    {
      hide Consistent, InProgress, Recorded;
      s := s0;
      var emptied := Attempt();
      if !emptied {
        return Some(WorkspaceUnsafe), s;
      }
      EmptyStage(d1, disk, s, files);
      StageRemoved(d1, disk, s, files);
      var removed := Rmdir(StageDir);
      if !removed {
        return Some(WorkspaceUnsafe), s;
      }
      s := s.(stage := None);
      var outputSynced := Sync(ADirectory(OutputDir));
      if !outputSynced {
        return Some(BundleWriteFailed), s;
      }
      var localSynced := Sync(Local);
      if !localSynced {
        return Some(BundleWriteFailed), s;
      }
      return None, s;
    }

    method FinishOutput(ghost d1: Disk, files: map<Name, Bytes>, s0: Session)
      returns (failure: Option<ErrorCode>, s: Session)
      requires Valid() && HasFiveFiles(files)
      requires InProgress(d1, disk, s0) && s0.stage.Some? && s0.output.Some?
      requires Recorded(disk, StageDir, s0.stageFiles, files) && s0.stageFiles.Keys == {}
      requires Recorded(disk, OutputDir, s0.outputFiles, files) && s0.outputFiles.Keys == OutputNames()
      modifies this
      ensures Valid()
      ensures InProgress(d1, disk, s)
      ensures failure.None? ==> s.stage.None? && s.output == s0.output && s.outputFiles == s0.outputFiles
      ensures failure.None? ==> Recorded(disk, OutputDir, s.outputFiles, files)
      ensures failure.None? ==> OwnedOutput(decode, sha, disk) && Stored(disk) == files
      ensures failure.Some? ==> failure.value != CleanupFailed
      ensures Faultless() && ManifestDescribes(decode, sha, files) ==>
                failure.None? || OnlySourceChanged(failure, disk, s)
      ensures old(log) <= log
      ensures failure.None? ==> faults == old(faults) && OutputSaved(log, files) && JustChecked(log, disk) && !Changed()
    {
      hide OutputSaved, Consistent, InProgress, Recorded, OwnedOutput, OutputMatches, ManifestDescribes, Stored, Tidy,
           Steady, Changed, OutputNames, HasFiveFiles;
      failure, s := RemoveStage(d1, files, s0);
      if failure.Some? {
        return;
      }
      ghost var saved := log;
      RecordedOutput(decode, sha, disk, s.outputFiles, files);
      var verified := VerifyExistingOutput(files);
      if verified.Raise? {
        return Some(BundleContractFailed), s;
      }
      OwnedMatches(decode, sha, disk, files);
      OutputJustSaved(saved, disk, files);
      var sourceUnchanged := CheckSource();
      if !sourceUnchanged {
        RecordedTidy(d1, disk, s, files);
        return Some(SourceChanged), s;
      }
      OutputStaysSaved(saved, log, files);
      return None, s;
    }

    method BuildOutput(files: map<Name, Bytes>) returns (failure: Option<ErrorCode>, s: Session)
      requires Valid() && HasFiveFiles(files)
      requires StageDir !in disk.top && OutputDir !in disk.top
      modifies this
      ensures Valid()
      ensures InProgress(old(disk), disk, s)
      ensures failure.None? ==>
              s.stage.None? && s.output.Some? && OwnedOutput(decode, sha, disk) && Stored(disk) == files
      ensures failure.Some? ==> failure.value != CleanupFailed
      ensures Faultless() && ManifestDescribes(decode, sha, files) ==>
                failure.None? || OnlySourceChanged(failure, disk, s)
      ensures failure.None? ==> faults == old(faults) && JustChecked(log, disk) && !Changed()
      ensures failure.None? ==> StageSaved(log, files) && AskedBeforeManifest(log) && OutputSaved(log, files)
    {
      hide StageSaved, AskedBeforeManifest, OutputSaved, Recorded, InProgress, ManifestDescribes, OwnedOutput;
      ghost var d1 := disk;
      DescribedSizes(decode, sha, files);
      failure, s := StageFiles(files);
      ghost var staged := log;
      if failure.None? {
        failure, s := LinkFiles(d1, files, s);
        LogGrows(staged, log, files);
      }
      ghost var linked := log;
      if failure.None? {
        failure, s := FinishOutput(d1, files, s);
        LogGrows(linked, log, files);
      }
    }

    /** The one thing that can stop a run without failing calls: the source has changed.
        What there is to remove is then all on record. */
    ghost predicate OnlySourceChanged(failure: Option<ErrorCode>, d: Disk, s: Session) {
      failure == Some(SourceChanged) && !Steady() && Tidy(d, s)
    }

    /** Without failing calls the answer is determined by the disk, except that a changed
        source turns a success into a refusal. */
    ghost predicate Answers(r: Result<bool, ErrorCode>, d: Disk, files: map<Name, Bytes>) {
      || r == FaultlessWork(decode, sha, d, files)
      || (FaultlessWork(decode, sha, d, files).Ok? && !Steady() && r.Raise? && r.error == SourceChanged)
    }

    /** The part of a run between taking and releasing the lock, before any cleanup. */
    method Work(files: map<Name, Bytes>) returns (failure: Option<ErrorCode>, s: Session, present: bool)
      requires Valid() && HasFiveFiles(files)
      modifies this
      ensures Valid()
      ensures InProgress(old(disk), disk, s) || (disk == old(disk) && s == NO_SESSION)
      ensures failure.None? ==> OwnedOutput(decode, sha, disk) && Stored(disk) == files
      ensures failure.None? && present ==> disk == old(disk)
      ensures failure.None? && !present ==> InProgress(old(disk), disk, s) && s.stage.None? && s.output.Some?
      ensures failure.Some? ==> failure.value != CleanupFailed
      ensures failure.None? ==> faults == old(faults) && JustChecked(log, disk) && !Changed()
      ensures failure.None? && !present ==>
              StageSaved(log, files) && AskedBeforeManifest(log) && OutputSaved(log, files)
      ensures Faultless() && ManifestDescribes(decode, sha, files) ==>
                && (failure.Some? ==> Tidy(disk, s))
                && Answers(if failure.Some? then Raise(failure.value) else Ok(!present), old(disk), files)
    {
      hide StageSaved, AskedBeforeManifest, OutputSaved, Consistent, ManifestDescribes, OwnedOutput, WellFormedOutput,
           Stored;
      failure, s, present := None, NO_SESSION, false;
      if StageDir in disk.top {
        failure := Some(WorkspaceUnsafe);
      } else if OutputDir in disk.top {
        present := true;
        var verified := VerifyExistingOutput(files);
        if verified.Raise? {
          failure := Some(verified.error);
        } else {
          var sourceUnchanged := CheckSource();
          failure := if sourceUnchanged then None else Some(SourceChanged);
        }
      } else {
        failure, s := BuildOutput(files);
      }
    }

    /** Removes what a failed session left, as far as that is possible and its own. */
    method CleanupSession(ghost d1: Disk, s: Session) returns (clean: bool)
      requires Valid()
      requires InProgress(d1, disk, s) || (disk == d1 && s == NO_SESSION)
      modifies this
      ensures Valid()
      ensures Extends(d1, disk)
      ensures clean ==> disk == d1
      ensures s == NO_SESSION ==> clean
      ensures Faultless() && Tidy(old(disk), s) ==> clean
      ensures log == old(log)
    {
      ghost var d := disk;
      var outputClean := CleanupOwnedDirectory(OutputDir, s.output, s.outputFiles);
      ghost var d2 := disk;
      if outputClean && Tidy(d, s) {
        StageStillTidy(d, d2, s);
      }
      var stageClean := CleanupOwnedDirectory(StageDir, s.stage, s.stageFiles);
      clean := outputClean && stageClean;
      AfterCleanup(d1, d, d2, disk, s, outputClean, stageClean);
    }

    method PublishUnderLock(ghost d0: Disk, lock: FileIdentity, files: map<Name, Bytes>)
      returns (r: Result<bool, ErrorCode>)
      requires Valid() && HasFiveFiles(files)
      requires Consistent(d0) && AddsFile(d0, disk, Top(LockFile)) && OwnedFile(disk, Top(LockFile), lock, 1)
      modifies this
      ensures Valid()
      ensures r == Ok(true) ==> PublishedOver(d0, disk, files) && ManifestDescribes(decode, sha, files)
      ensures r == Ok(false) ==> disk == d0 && OwnedOutput(decode, sha, disk) && Stored(disk) == files
      ensures r.Raise? && r.error != CleanupFailed ==> disk == d0
      ensures Extends(d0, disk)
      ensures r.Ok? ==> faults == old(faults) && CheckedLast(decode, sha, log, files, disk) && !Changed()
      ensures r == Ok(true) ==> StageSaved(log, files) && AskedBeforeManifest(log) && OutputSaved(log, files)
      ensures Faultless() && ManifestDescribes(decode, sha, files) ==> Answers(r, d0, files)
    {
      hide Consistent, InProgress, AddsFile, Extends, ManifestDescribes, WellFormedOutput, StageSaved,
           AskedBeforeManifest, OutputSaved, Tidy, Answers, Stored, Steady, Changed, JustChecked, OutputMatches;
      ghost var d1 := disk;
      LockInvisible(decode, sha, d0, d1);
      var failure, s, present := Work(files);
      ghost var checkedAt := disk;
      var clean := true;
      if failure.Some? {
        clean := CleanupSession(d1, s);
      } else if present {
        SameExtends(d1);
      } else {
        SessionExtends(d1, disk, s);
        OwnedMatches(decode, sha, disk, files);
        PublishedAfterRelease(d0, d1, disk, s, lock, files, clock(calls));
      }
      LockSurvives(d0, d1, disk, lock, clock(calls));
      var released := SafeUnlink(Top(LockFile), lock, 1);
      ghost var worked := log;
      var synced := Sync(Local);
      if !clean || !released || !synced {
        return Raise(CleanupFailed);
      }
      LogGrows(worked, log, files);
      CheckedUnderLock(worked, log, checkedAt, files, disk);
      r := if failure.Some? then Raise(failure.value) else Ok(!present);
      AnswersWithoutLock(r, d0, d1, files);
    }

    lemma AnswersWithoutLock(r: Result<bool, ErrorCode>, d0: Disk, d1: Disk, files: map<Name, Bytes>)
      requires Consistent(d0) && AddsFile(d0, d1, Top(LockFile))
      ensures Answers(r, d1, files) ==> Answers(r, d0, files)
    {
      hide Consistent, OwnedOutput, Stored;
      LockInvisible(decode, sha, d0, d1);
    }

    lemma CheckedUnderLock(a: seq<Step>, b: seq<Step>, at: Disk, files: map<Name, Bytes>, now: Disk)
      requires b == a + [Synced(Local, now)]
      ensures JustChecked(a, at) && OwnedOutput(decode, sha, at) && Stored(at) == files ==>
                CheckedLast(decode, sha, b, files, now)
    {
      hide OwnedOutput, Stored;
    }

    lemma NotBoth()
      ensures !(Steady() && Changed())
    {
      assert sourceSame(0) || !sourceSame(0);
    }

    /** Ok(true): published now. Ok(false): an identical bundle was already there. */
    method PublishNewOutput(files: map<Name, Bytes>) returns (r: Result<bool, ErrorCode>)
      requires Valid() && HasFiveFiles(files)
      modifies this
      ensures Valid()
      // all or nothing
      ensures r == Ok(true) ==> PublishedOver(old(disk), disk, files) && ManifestDescribes(decode, sha, files)
      ensures r == Ok(false) ==> disk == old(disk) && OwnedOutput(decode, sha, disk) && Stored(disk) == files
      ensures r.Raise? && r.error != CleanupFailed ==> disk == old(disk)
      // whatever happened, nothing that was there before is lost or altered
      ensures Extends(old(disk), disk)
      // success means that no call failed and that everything was checked and synced in its place
      ensures r.Ok? ==> faults == old(faults) && CheckedLast(decode, sha, log, files, disk)
      ensures r == Ok(true) ==> StageSaved(log, files) && AskedBeforeManifest(log) && OutputSaved(log, files)
      // a source that is never the same is never published
      ensures Changed() ==> r.Raise? && (r.error != CleanupFailed ==> disk == old(disk))
      // and without faults the outcome is determined by what was on disk and by the source
      ensures Faultless() && Steady() && ManifestDescribes(decode, sha, files) ==>
                r == FaultlessOutcome(decode, sha, old(disk), files)
      ensures Faultless() && Changed() && ManifestDescribes(decode, sha, files) ==>
                var outcome := FaultlessOutcome(decode, sha, old(disk), files);
                r.Raise? && disk == old(disk) && r.error == if outcome.Ok? then SourceChanged else outcome.error
    {
      hide Consistent, InProgress, AddsFile, PublishedOver, Extends, StageSaved, AskedBeforeManifest, OutputSaved,
           CheckedLast, Steady, Changed, OwnedOutput, LockHeld, Stored, ManifestDescribes;
      NotBoth();
      log := [];
      ghost var d0 := disk;
      var lock := AcquireLock();
      LockExtends(d0, disk);
      if lock.Raise? {
        return Raise(lock.error);
      }
      r := PublishUnderLock(d0, lock.value, files);
    }

    /** Building twice from the same source publishes once; building from a changed
        source afterwards is refused. In every case, faults included, the first
        bundle stays in place; `middle` is the disk between the two builds. */
    method PublishAgain(first: map<Name, Bytes>, second: map<Name, Bytes>)
      returns (r1: Result<bool, ErrorCode>, r2: Result<bool, ErrorCode>, ghost middle: Disk)
      requires Valid() && HasFiveFiles(first) && HasFiveFiles(second)
      modifies this
      ensures r1 == Ok(true) ==> OutputMatches(disk, first)
      ensures r1 == Ok(true) ==> PublishedOver(old(disk), middle, first) && Extends(middle, disk)
      ensures r1 == Ok(true) && r2 != Raise(CleanupFailed) ==> disk == middle
      ensures r1 == Ok(true) && r2.Ok? ==> r2 == Ok(false) && second == first
      ensures r1 == Ok(true) && Faultless() && Steady() && ManifestDescribes(decode, sha, second) ==>
                r2 == if second == first then Ok(false) else Raise(BundleContractFailed)
    {
      hide Consistent, InProgress, AddsFile, PublishedOver, Extends, StageSaved, AskedBeforeManifest, OutputSaved,
           CheckedLast;
      ghost var d0 := disk;
      r1 := PublishNewOutput(first);
      middle := disk;
      r2 := PublishNewOutput(second);
      if r1 == Ok(true) {
        AfterPublish(decode, sha, d0, middle, first, second);
        OutputSurvives(middle, disk, first);
        if r2.Ok? && r2.value {
          PublishedWhereAbsent(middle, disk, second);
          assert false;
        }
      }
    }
  }
}
