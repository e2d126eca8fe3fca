/** What a run of the bundle publisher knows about the disk at each stage, and what
    its steps do to that knowledge (tools/local-stack/build_submission_bundle.py). */
module BundleState {
  import opened Basics
  import opened LocalDisk
  import opened BundleFiles

  datatype ErrorCode =
    | WorkspaceUnsafe | WorkspaceNotOwned | BuildInProgress | BundleWriteFailed
    | BundleContractFailed | SourceChanged | CleanupFailed

  /** "networkagent-local-submission-lock/1" and a newline. */
  const LOCK_BYTES: Bytes := [
    110, 101, 116, 119, 111, 114, 107, 97, 103, 101, 110, 116, 45, 108, 111, 99, 97, 108, 45,
    115, 117, 98, 109, 105, 115, 115, 105, 111, 110, 45, 108, 111, 99, 107, 47, 49, 10
  ]

  // ---- predicates on disks ----

  /** `p` is a regular file with this link count and exactly this identity. */
  predicate OwnedFile(d: Disk, p: Path, id: FileIdentity, links: nat) {
    && IsFile(d, p)
    && var ino := Lookup(d, p).value;
       d.nodes[ino].regular && d.nodes[ino].links == links && Identity(d, ino) == id
  }

  predicate Readable(d: Disk, p: Path, maximum: nat) {
    && IsFile(d, p)
    && var node := d.nodes[Lookup(d, p).value];
       node.regular && node.links == 1 && |node.bytes| <= maximum
  }

  function BytesAt(d: Disk, p: Path): Bytes
    requires IsFile(d, p)
  {
    d.nodes[Lookup(d, p).value].bytes
  }

  /** The output directory holds exactly the five names, each a readable file. */
  predicate WellFormedOutput(d: Disk) {
    && OutputDir in d.top && d.top[OutputDir].DirAt?
    && d.top[OutputDir].children.Keys == OutputNames()
    && (forall n :: n in OutputNames() ==> Readable(d, Under(OutputDir, n), OUTPUT_FILE_MAX_BYTES))
  }

  function Stored(d: Disk): (files: map<Name, Bytes>)
    requires WellFormedOutput(d)
    ensures HasFiveFiles(files)
  {
    map n | n in OutputNames() :: BytesAt(d, Under(OutputDir, n))
  }

  predicate OutputMatches(d: Disk, files: map<Name, Bytes>) {
    WellFormedOutput(d) && Stored(d) == files
  }

  /** An output directory that carries its own valid manifest. */
  predicate OwnedOutput(decode: Bytes -> Option<Manifest>, sha: Bytes -> string, d: Disk) {
    WellFormedOutput(d) && ManifestDescribes(decode, sha, Stored(d))
  }

  /** A lock file that a builder wrote completely. */
  predicate LockHeld(d: Disk) {
    Readable(d, Top(LockFile), |LOCK_BYTES|) && BytesAt(d, Top(LockFile)) == LOCK_BYTES
  }

  function ChildInos(d: Disk, n: Name): set<Ino> {
    if n in d.top && d.top[n].DirAt? then d.top[n].children.Values else {}
  }

  function OwnedInos(owned: map<Name, FileIdentity>): set<Ino> {
    set n | n in owned :: owned[n].ino
  }

  /** Everything of `d0` is in `d` unchanged; new top-level names are the builder's. */
  ghost predicate Extends(d0: Disk, d: Disk) {
    && (forall n :: n in d0.top ==> n in d.top && d.top[n] == d0.top[n])
    && (forall i :: i in d0.nodes ==> i in d.nodes && d.nodes[i] == d0.nodes[i])
    && (forall n :: n in d.top && n !in d0.top ==> n == LockFile || n == StageDir || n == OutputDir)
  }

  /** `d` is `d0` with one more file at `p`. */
  ghost predicate AddsFile(d0: Disk, d: Disk, p: Path) {
    && Vacant(d0, p)
    && Lookup(d, p).Some?
    && var ino := Lookup(d, p).value;
       && ino !in d0.nodes && ino in d.nodes
       && d.top == Bind(d0, p, ino).top
       && d.nodes == d0.nodes[ino := d.nodes[ino]]
  }

  /** Equal in everything but the change time, which link and unlink move. */
  predicate SameIdentityObject(a: FileIdentity, b: FileIdentity) {
    a.(ctime := 0) == b.(ctime := 0)
  }

  // ---- what one run has made so far ----

  /** The local variables of a run that decide what it may clean up. */
  datatype Session = Session(
    stage: Option<DirId>, output: Option<DirId>,
    stageFiles: map<Name, FileIdentity>, outputFiles: map<Name, FileIdentity>)

  /** `d` is `d1` plus the session's own directories and the files in them. */
  ghost predicate InProgress(d1: Disk, d: Disk, s: Session) {
    var inos := ChildInos(d, StageDir) + ChildInos(d, OutputDir);
    && StageDir !in d1.top && OutputDir !in d1.top
    && d.top - {StageDir, OutputDir} == d1.top
    && (s.stage.Some? <==> StageDir in d.top)
    && (s.output.Some? <==> OutputDir in d.top)
    && (s.stage.Some? ==> IsDir(d, StageDir, s.stage.value))
    && (s.output.Some? ==> IsDir(d, OutputDir, s.output.value))
    && inos !! d1.nodes.Keys
    && d.nodes - inos == d1.nodes
    && OwnedInos(s.stageFiles) !! d1.nodes.Keys
    && OwnedInos(s.outputFiles) !! d1.nodes.Keys
  }

  /** Directory `dir` holds exactly the recorded files, with the rendered bytes. */
  ghost predicate Recorded(d: Disk, dir: Name, owned: map<Name, FileIdentity>, files: map<Name, Bytes>) {
    && dir in d.top && d.top[dir].DirAt?
    && d.top[dir].children.Keys == owned.Keys
    && (forall n :: n in owned ==>
        n in files && OwnedFile(d, Under(dir, n), owned[n], 1) && BytesAt(d, Under(dir, n)) == files[n])
  }

  /** A published bundle: `d` is `d0` plus the five files and nothing else. */
  ghost predicate PublishedOver(d0: Disk, d: Disk, files: map<Name, Bytes>) {
    && LockFile !in d0.top && StageDir !in d0.top && OutputDir !in d0.top
    && OutputMatches(d, files)
    && d.top - {OutputDir} == d0.top
    && ChildInos(d, OutputDir) !! d0.nodes.Keys
    && d.nodes - ChildInos(d, OutputDir) == d0.nodes
  }

  /** The prefix of OUTPUT_FILENAMES already handled by a loop. */
  function Prefix(i: nat): set<Name>
    requires i <= 5
  {
    if i == 0 then {} else Prefix(i - 1) + {OUTPUT_FILENAMES[i - 1]}
  }

  lemma PrefixIs(i: nat)
    requires i <= 5
    ensures forall n :: n in Prefix(i) <==> exists k :: 0 <= k < i && OUTPUT_FILENAMES[k] == n
  {
    if i > 0 {
      PrefixIs(i - 1);
    }
  }

  lemma PrefixStep(i: nat)
    requires i < 5
    ensures OUTPUT_FILENAMES[i] in OutputNames() && OUTPUT_FILENAMES[i] !in Prefix(i)
    ensures Prefix(i + 1) == Prefix(i) + {OUTPUT_FILENAMES[i]}
  {
    PrefixIs(i);
  }

  /** What remains to be handled after the first i names. */
  function Remaining(i: nat): set<Name>
    requires i <= 5
  {
    OutputNames() - Prefix(i)
  }

  lemma RemainingStep(i: nat)
    requires i < 5
    ensures OUTPUT_FILENAMES[i] in Remaining(i)
    ensures Remaining(i + 1) == Remaining(i) - {OUTPUT_FILENAMES[i]}
  {
    PrefixStep(i);
  }

  lemma PrefixAll()
    ensures Prefix(0) == {} && Prefix(5) == OutputNames()
    ensures Remaining(0) == OutputNames() && Remaining(5) == {}
  {
    PrefixIs(5);
  }

  ghost predicate AllOwned(d: Disk, n: Name, id: DirId, owned: map<Name, FileIdentity>) {
    && IsDir(d, n, id)
    && (forall m :: m in d.top[n].children ==> m in owned && OwnedFile(d, Under(n, m), owned[m], 1))
  }

  /** A cleanup that succeeded: the directory is gone with exactly its own files. */
  ghost predicate RemovedOwned(d0: Disk, d: Disk, n: Name, id: DirId, owned: map<Name, FileIdentity>) {
    && AllOwned(d0, n, id, owned)
    && d.top == d0.top - {n}
    && d.nodes == d0.nodes - d0.top[n].children.Values
  }

  /** Any cleanup: only entries of directory `n` and only owned inodes can be gone. */
  ghost predicate TouchedOnly(d0: Disk, d: Disk, n: Name, owned: map<Name, FileIdentity>) {
    && d.top - {n} == d0.top - {n}
    && (n in d.top ==> n in d0.top)
    && d.nodes.Keys <= d0.nodes.Keys
    && (forall i :: i in d0.nodes && i !in OwnedInos(owned) ==> i in d.nodes && d.nodes[i] == d0.nodes[i])
  }

  /** What a session has created is all on record and still there. */
  ghost predicate Tidy(d: Disk, s: Session) {
    && (s.stage.Some? ==> AllOwned(d, StageDir, s.stage.value, s.stageFiles))
    && (s.output.Some? ==> AllOwned(d, OutputDir, s.output.value, s.outputFiles))
  }

  lemma RecordedTidy(d1: Disk, d: Disk, s: Session, files: map<Name, Bytes>)
    requires InProgress(d1, d, s)
    requires s.stage.Some? ==> Recorded(d, StageDir, s.stageFiles, files)
    requires s.output.Some? ==> Recorded(d, OutputDir, s.outputFiles, files)
    ensures Tidy(d, s)
  {
  }

  /** Removing the output leaves the stage as it was. */
  lemma StageStillTidy(d: Disk, d2: Disk, s: Session)
    requires Consistent(d) && Tidy(d, s)
    requires if s.output.Some? then RemovedOwned(d, d2, OutputDir, s.output.value, s.outputFiles) else d2 == d
    ensures s.stage.Some? ==> AllOwned(d2, StageDir, s.stage.value, s.stageFiles)
  {
    hide Consistent;
    if s.stage.Some? && s.output.Some? {
      forall m | m in d.top[StageDir].children
        ensures OwnedFile(d2, Under(StageDir, m), s.stageFiles[m], 1)
      {
        var ino := d.top[StageDir].children[m];
        if ino in d.top[OutputDir].children.Values {
          var k :| k in d.top[OutputDir].children && d.top[OutputDir].children[k] == ino;
          SingleName(d, Under(StageDir, m), Under(OutputDir, k));
        }
      }
    }
  }

  lemma SessionStart(d1: Disk, id: DirId, files: map<Name, Bytes>)
    requires StageDir !in d1.top && OutputDir !in d1.top
    ensures InProgress(d1, d1, NO_SESSION)
    ensures InProgress(d1, MakeDir(d1, StageDir, id), Session(Some(id), None, map[], map[]))
    ensures Recorded(MakeDir(d1, StageDir, id), StageDir, map[], files)
  {
    var d := MakeDir(d1, StageDir, id);
    assert d1.top - {StageDir, OutputDir} == d1.top;
    assert d.top - {StageDir, OutputDir} == d1.top;
    assert ChildInos(d, StageDir) == {} && d1.nodes - {} == d1.nodes;
  }

  lemma StageStep(d1: Disk, d: Disk, d': Disk, s: Session, n: Name)
    requires InProgress(d1, d, s) && s.stage.Some?
    requires AddsFile(d, d', Under(StageDir, n))
    ensures InProgress(d1, d', s)
    ensures ChildInos(d', StageDir) == ChildInos(d, StageDir) + {Lookup(d', Under(StageDir, n)).value}
    ensures Lookup(d', Under(StageDir, n)).value !in d1.nodes
  {
    var ino := Lookup(d', Under(StageDir, n)).value;
    var kids, kids' := d.top[StageDir].children, d'.top[StageDir].children;
    assert kids' == kids[n := ino];
    assert kids'.Values == kids.Values + {ino} by {
      forall i | i in kids.Values ensures i in kids'.Values {
        var m :| m in kids && kids[m] == i;
        assert m in kids' && kids'[m] == i;
      }
      assert n in kids' && kids'[n] == ino;
    }
    assert ChildInos(d', OutputDir) == ChildInos(d, OutputDir);
    assert d'.top - {StageDir, OutputDir} == d1.top;
    assert d1.nodes.Keys <= d.nodes.Keys;
    var inos := ChildInos(d, StageDir) + ChildInos(d, OutputDir);
    var inos' := ChildInos(d', StageDir) + ChildInos(d', OutputDir);
    assert inos' == inos + {ino};
    assert d'.nodes - inos' == d1.nodes;
  }

  lemma StageStepRecorded(d: Disk, d': Disk, owned: map<Name, FileIdentity>, files: map<Name, Bytes>, n: Name,
      id: FileIdentity)
    requires Recorded(d, StageDir, owned, files) && AddsFile(d, d', Under(StageDir, n))
    requires n in files && OwnedFile(d', Under(StageDir, n), id, 1) && BytesAt(d', Under(StageDir, n)) == files[n]
    ensures Recorded(d', StageDir, owned[n := id], files)
  {
    forall m | m in owned && m != n
      ensures OwnedFile(d', Under(StageDir, m), owned[m], 1) && BytesAt(d', Under(StageDir, m)) == files[m]
    {
      assert Lookup(d', Under(StageDir, m)) == Lookup(d, Under(StageDir, m));
    }
  }

  // ---- reading an existing output back ----

  /** The file a manifest record names is there and is what the record says. */
  predicate RecordStored(d: Disk, sha: Bytes -> string, r: Record) {
    && Readable(d, Under(OutputDir, r.name), OUTPUT_FILE_MAX_BYTES)
    && RecordDescribes(sha, r, BytesAt(d, Under(OutputDir, r.name)))
  }

  /** What the checks on one manifest add up to. */
  lemma OwnedOutputIs(decode: Bytes -> Option<Manifest>, sha: Bytes -> string, d: Disk)
    requires OutputDir in d.top && d.top[OutputDir].DirAt? && d.top[OutputDir].children.Keys == OutputNames()
    requires Readable(d, Under(OutputDir, ManifestJson), OUTPUT_FILE_MAX_BYTES)
    ensures OwnedOutput(decode, sha, d) <==>
            var m := ParseOwnedManifest(decode, BytesAt(d, Under(OutputDir, ManifestJson)));
            m.Some? && forall i :: 0 <= i < 4 ==> RecordStored(d, sha, m.value.files[i])
  {
    hide ParseOwnedManifest, CleanText, RecordAccepted;
    var m := ParseOwnedManifest(decode, BytesAt(d, Under(OutputDir, ManifestJson)));
    if m.Some? {
      assert forall i :: 0 <= i < 4 ==>
          OUTPUT_FILENAMES[i] == m.value.files[i].name && OUTPUT_FILENAMES[i] in OutputNames();
      if forall i :: 0 <= i < 4 ==> RecordStored(d, sha, m.value.files[i]) {
        forall n | n in OutputNames() ensures Readable(d, Under(OutputDir, n), OUTPUT_FILE_MAX_BYTES) {
          if n != ManifestJson {
            var k :| 0 <= k < 4 && OUTPUT_FILENAMES[k] == n;
            assert RecordStored(d, sha, m.value.files[k]);
          }
        }
      }
    }
  }

  /** Comparing file by file is comparing the stored bundle. */
  lemma StoredIs(d: Disk, expected: map<Name, Bytes>)
    requires WellFormedOutput(d) && HasFiveFiles(expected)
    ensures Stored(d) == expected <==>
            && BytesAt(d, Under(OutputDir, ManifestJson)) == expected[ManifestJson]
            && forall k :: 0 <= k < 4 ==> BytesAt(d, Under(OutputDir, PAYLOAD_NAMES[k])) == expected[PAYLOAD_NAMES[k]]
  {
    if && BytesAt(d, Under(OutputDir, ManifestJson)) == expected[ManifestJson]
       && forall k :: 0 <= k < 4 ==> BytesAt(d, Under(OutputDir, PAYLOAD_NAMES[k])) == expected[PAYLOAD_NAMES[k]]
    {
      forall n | n in OutputNames() ensures Stored(d)[n] == expected[n] {
        if n != ManifestJson {
          var k :| 0 <= k < 4 && PAYLOAD_NAMES[k] == n;
        }
      }
    }
  }

  /** A recorded output whose manifest describes it will pass verification. */
  lemma RecordedOutput(decode: Bytes -> Option<Manifest>, sha: Bytes -> string, d: Disk,
                       owned: map<Name, FileIdentity>, files: map<Name, Bytes>)
    requires HasFiveFiles(files) && owned.Keys == OutputNames() && Recorded(d, OutputDir, owned, files)
    ensures ManifestDescribes(decode, sha, files) ==> OwnedOutput(decode, sha, d) && Stored(d) == files
  {
    hide ManifestDescribes;
    if ManifestDescribes(decode, sha, files) {
      DescribedSizes(decode, sha, files);
      forall n | n in OutputNames()
        ensures Readable(d, Under(OutputDir, n), OUTPUT_FILE_MAX_BYTES) && BytesAt(d, Under(OutputDir, n)) == files[n]
      {
        assert OwnedFile(d, Under(OutputDir, n), owned[n], 1);
      }
      assert Stored(d) == files;
    }
  }

  /** The next file to publish is staged and its place in the output is free. */
  lemma ReadyToLink(d: Disk, staged: map<Name, FileIdentity>, published: map<Name, FileIdentity>,
      files: map<Name, Bytes>, n: Name)
    requires Recorded(d, StageDir, staged, files) && Recorded(d, OutputDir, published, files)
    requires n in staged && n !in published
    ensures OwnedFile(d, Under(StageDir, n), staged[n], 1) && Vacant(d, Under(OutputDir, n)) && n in files
  {
  }

  // ---- publishing one file: link, then unlink the staged name ----

  function Linked(d: Disk, n: Name, stamp: int): Disk
    requires IsFile(d, Under(StageDir, n)) && Vacant(d, Under(OutputDir, n))
  {
    AddLink(d, Under(StageDir, n), Under(OutputDir, n), stamp)
  }

  lemma LinkStep(d1: Disk, d: Disk, s: Session, n: Name, stamp: int)
    requires InProgress(d1, d, s)
    requires IsFile(d, Under(StageDir, n)) && Vacant(d, Under(OutputDir, n))
    ensures InProgress(d1, Linked(d, n, stamp), s)
    ensures ChildInos(Linked(d, n, stamp), StageDir) == ChildInos(d, StageDir)
  {
    var d' := Linked(d, n, stamp);
    var ino := Lookup(d, Under(StageDir, n)).value;
    var kids, kids' := d.top[OutputDir].children, d'.top[OutputDir].children;
    assert kids' == kids[n := ino];
    assert kids'.Values == kids.Values + {ino} by {
      forall i | i in kids.Values ensures i in kids'.Values {
        var m :| m in kids && kids[m] == i;
        assert kids'[m] == i;
      }
      assert kids'[n] == ino;
    }
    assert d.top[StageDir].children[n] == ino;
    assert d'.top[StageDir] == d.top[StageDir];
    assert ino in ChildInos(d, StageDir);
    assert d'.top - {StageDir, OutputDir} == d1.top;
    assert ChildInos(d', StageDir) + ChildInos(d', OutputDir) == ChildInos(d, StageDir) + ChildInos(d, OutputDir);
    var inos := ChildInos(d, StageDir) + ChildInos(d, OutputDir);
    assert d'.nodes - inos == d.nodes - inos;
  }

  lemma UnstageStep(d1: Disk, d: Disk, s: Session, n: Name, stamp: int)
    requires InProgress(d1, d, s)
    requires IsFile(d, Under(StageDir, n)) && Lookup(d, Under(OutputDir, n)) == Lookup(d, Under(StageDir, n))
    requires d.nodes[Lookup(d, Under(StageDir, n)).value].links == 2
    ensures InProgress(d1, RemoveLink(d, Under(StageDir, n), stamp), s)
    ensures Lookup(d, Under(StageDir, n)).value !in d1.nodes
  {
    var d' := RemoveLink(d, Under(StageDir, n), stamp);
    var ino := Lookup(d, Under(StageDir, n)).value;
    var kids, kids' := d.top[StageDir].children, d'.top[StageDir].children;
    assert kids' == kids - {n};
    assert d'.top[OutputDir] == d.top[OutputDir];
    assert d.top[OutputDir].children[n] == ino;
    assert ino in ChildInos(d, OutputDir);
    var inos, inos' := ChildInos(d, StageDir) + ChildInos(d, OutputDir),
        ChildInos(d', StageDir) + ChildInos(d', OutputDir);
    assert inos' == inos by {
      forall i | i in kids.Values ensures i in inos' {
        var m :| m in kids && kids[m] == i;
        if m != n {
          assert kids'[m] == i;
        }
      }
    }
    assert d'.top - {StageDir, OutputDir} == d1.top;
    assert d'.nodes - inos == d.nodes - inos;
  }

  lemma PublishStepRecorded(d: Disk, n: Name, linkStamp: int, unlinkStamp: int, staged: map<Name, FileIdentity>,
                            published: map<Name, FileIdentity>, files: map<Name, Bytes>)
    requires Consistent(d)
    requires Recorded(d, StageDir, staged, files) && Recorded(d, OutputDir, published, files)
    requires n in staged && n !in published
    ensures var d2 := Linked(d, n, linkStamp);
            IsFile(d2, Under(StageDir, n)) &&
            var ino := Lookup(d2, Under(StageDir, n)).value;
            && d2.nodes[ino].regular && d2.nodes[ino].links == 2 && BytesAt(d2, Under(StageDir, n)) == files[n]
            && Lookup(d2, Under(OutputDir, n)) == Some(ino)
            && var d3 := RemoveLink(d2, Under(StageDir, n), unlinkStamp);
               && Recorded(d3, StageDir, staged - {n}, files)
               && Lookup(d3, Under(OutputDir, n)) == Some(ino) && ino in d3.nodes
               && Recorded(d3, OutputDir, published[n := Identity(d3, ino)], files)
  {
    assert OwnedFile(d, Under(StageDir, n), staged[n], 1) && BytesAt(d, Under(StageDir, n)) == files[n];
    UnstagedRecords(d, n, linkStamp, unlinkStamp, staged, files);
    PublishedRecords(d, n, linkStamp, unlinkStamp, staged, published, files);
  }

  /** The disk after file `n` has been linked and its staged name removed. */
  function Moved(d: Disk, n: Name, linkStamp: int, unlinkStamp: int): Disk
    requires IsFile(d, Under(StageDir, n)) && Vacant(d, Under(OutputDir, n))
  {
    RemoveLink(Linked(d, n, linkStamp), Under(StageDir, n), unlinkStamp)
  }

  lemma UnstagedRecords(d: Disk, n: Name, linkStamp: int, unlinkStamp: int, staged: map<Name, FileIdentity>,
      files: map<Name, Bytes>)
    requires Consistent(d) && Recorded(d, StageDir, staged, files) && n in staged && Vacant(d, Under(OutputDir, n))
    ensures IsFile(d, Under(StageDir, n))
    ensures Recorded(Moved(d, n, linkStamp, unlinkStamp), StageDir, staged - {n}, files)
  {
    hide Consistent;
    assert OwnedFile(d, Under(StageDir, n), staged[n], 1);
    var d3 := Moved(d, n, linkStamp, unlinkStamp);
    forall m | m in staged - {n}
      ensures OwnedFile(d3, Under(StageDir, m), staged[m], 1) && BytesAt(d3, Under(StageDir, m)) == files[m]
    {
      assert OwnedFile(d, Under(StageDir, m), staged[m], 1);
      assert Lookup(d3, Under(StageDir, m)) == Lookup(d, Under(StageDir, m));
      OtherInode(d, Under(StageDir, n), Under(StageDir, m));
    }
  }

  lemma PublishedRecords(d: Disk, n: Name, linkStamp: int, unlinkStamp: int, staged: map<Name, FileIdentity>,
                         published: map<Name, FileIdentity>, files: map<Name, Bytes>)
    requires Consistent(d) && Recorded(d, OutputDir, published, files) && n !in published
    requires n in staged && n in files && OwnedFile(d, Under(StageDir, n), staged[n], 1)
    requires BytesAt(d, Under(StageDir, n)) == files[n]
    ensures Vacant(d, Under(OutputDir, n))
    ensures var d3 := Moved(d, n, linkStamp, unlinkStamp);
            var ino := Lookup(d, Under(StageDir, n)).value;
            Lookup(d3, Under(OutputDir, n)) == Some(ino) && ino in d3.nodes
                && Recorded(d3, OutputDir, published[n := Identity(d3, ino)], files)
  {
    hide Consistent;
    var d3 := Moved(d, n, linkStamp, unlinkStamp);
    forall m | m in published
      ensures OwnedFile(d3, Under(OutputDir, m), published[m], 1) && BytesAt(d3, Under(OutputDir, m)) == files[m]
    {
      assert OwnedFile(d, Under(OutputDir, m), published[m], 1);
      assert Lookup(d3, Under(OutputDir, m)) == Lookup(d, Under(OutputDir, m));
      OtherInode(d, Under(StageDir, n), Under(OutputDir, m));
    }
  }

  /** There is room in the staging directory for a file not staged yet. */
  lemma RoomToStage(d1: Disk, d: Disk, s: Session, files: map<Name, Bytes>, n: Name)
    requires InProgress(d1, d, s) && s.stage.Some? && Recorded(d, StageDir, s.stageFiles, files) && n !in s.stageFiles
    ensures Vacant(d, Under(StageDir, n))
  {
  }

  /** Recording a file the session made keeps the session in progress. */
  lemma RecordStaged(d1: Disk, d: Disk, s: Session, n: Name, id: FileIdentity)
    requires InProgress(d1, d, s) && OwnedFile(d, Under(StageDir, n), id, 1) && id.ino !in d1.nodes
    ensures InProgress(d1, d, s.(stageFiles := s.stageFiles[n := id]))
  {
  }

  lemma RecordPublished(d1: Disk, d: Disk, s: Session, n: Name, id: FileIdentity)
    requires InProgress(d1, d, s) && OwnedFile(d, Under(OutputDir, n), id, 1)
    ensures InProgress(d1, d, s.(outputFiles := s.outputFiles[n := id], stageFiles := s.stageFiles - {n}))
  {
    var s' := s.(outputFiles := s.outputFiles[n := id], stageFiles := s.stageFiles - {n});
    assert d.top[OutputDir].children[n] == id.ino;
    assert id.ino in ChildInos(d, OutputDir);
    assert OwnedInos(s'.outputFiles) <= OwnedInos(s.outputFiles) + {id.ino};
    assert OwnedInos(s'.stageFiles) <= OwnedInos(s.stageFiles);
  }

  lemma OutputStart(d1: Disk, d: Disk, s: Session, id: DirId, files: map<Name, Bytes>)
    requires InProgress(d1, d, s) && s.output.None? && Recorded(d, StageDir, s.stageFiles, files)
    ensures OutputDir !in d.top
    ensures InProgress(d1, MakeDir(d, OutputDir, id), s.(output := Some(id)))
    ensures Recorded(MakeDir(d, OutputDir, id), StageDir, s.stageFiles, files)
    ensures Recorded(MakeDir(d, OutputDir, id), OutputDir, map[], files)
  {
    var d' := MakeDir(d, OutputDir, id);
    assert d'.top - {StageDir, OutputDir} == d1.top;
    assert ChildInos(d', StageDir) == ChildInos(d, StageDir) && ChildInos(d', OutputDir) == {};
    assert ChildInos(d, OutputDir) == {};
    forall n | n in s.stageFiles ensures Lookup(d', Under(StageDir, n)) == Lookup(d, Under(StageDir, n)) {
    }
  }

  lemma EmptyStage(d1: Disk, d: Disk, s: Session, files: map<Name, Bytes>)
    requires InProgress(d1, d, s) && s.stage.Some? && Recorded(d, StageDir, s.stageFiles, files)
    requires s.stageFiles.Keys == {}
    ensures StageDir in d.top && d.top[StageDir].DirAt? && d.top[StageDir].children == map[]
  {
    assert d.top[StageDir].children.Keys == {};
  }

  lemma OwnedMatches(decode: Bytes -> Option<Manifest>, sha: Bytes -> string, d: Disk, files: map<Name, Bytes>)
    requires OwnedOutput(decode, sha, d) && Stored(d) == files
    ensures OutputMatches(d, files)
  {
    hide WellFormedOutput;
  }

  lemma StageRemoved(d1: Disk, d: Disk, s: Session, files: map<Name, Bytes>)
    requires InProgress(d1, d, s) && s.stage.Some? && d.top[StageDir].children == map[]
    requires Recorded(d, OutputDir, s.outputFiles, files)
    ensures InProgress(d1, d.(top := d.top - {StageDir}), s.(stage := None))
    ensures Recorded(d.(top := d.top - {StageDir}), OutputDir, s.outputFiles, files)
  {
    var d' := d.(top := d.top - {StageDir});
    assert d'.top - {StageDir, OutputDir} == d1.top;
    assert ChildInos(d, StageDir) == {} == ChildInos(d', StageDir);
    assert ChildInos(d', OutputDir) == ChildInos(d, OutputDir);
    forall n | n in s.outputFiles ensures Lookup(d', Under(OutputDir, n)) == Lookup(d, Under(OutputDir, n)) {
    }
  }

  lemma OtherInode(d: Disk, p: Path, q: Path)
    requires Consistent(d) && IsFile(d, p) && IsFile(d, q) && p != q && d.nodes[Lookup(d, p).value].links == 1
    ensures Lookup(d, p) != Lookup(d, q)
  {
    if Lookup(d, p) == Lookup(d, q) {
      SingleName(d, p, q);
    }
  }

  // ---- after a failure ----

  /** Both directories cleaned: nothing is left of the session. */
  lemma CleanedUp(d1: Disk, d: Disk, d2: Disk, d3: Disk, s: Session)
    requires InProgress(d1, d, s)
    requires if s.output.Some? then RemovedOwned(d, d2, OutputDir, s.output.value, s.outputFiles) else d2 == d
    requires if s.stage.Some? then RemovedOwned(d2, d3, StageDir, s.stage.value, s.stageFiles) else d3 == d2
    ensures d3 == d1
  {
    assert ChildInos(d2, StageDir) == ChildInos(d, StageDir);
    assert d3.top == d.top - {StageDir, OutputDir};
    assert d3.nodes == d.nodes - (ChildInos(d, StageDir) + ChildInos(d, OutputDir));
  }

  /** Whatever a cleanup managed to do, it took nothing that was there before. */
  lemma CleanupExtends(d1: Disk, d: Disk, d2: Disk, d3: Disk, s: Session)
    requires InProgress(d1, d, s)
    requires TouchedOnly(d, d2, OutputDir, s.outputFiles) && TouchedOnly(d2, d3, StageDir, s.stageFiles)
    ensures Extends(d1, d3)
  {
    forall n | n in d1.top ensures n in d3.top && d3.top[n] == d1.top[n] {
      assert n in d.top - {StageDir, OutputDir};
      assert n in d.top - {OutputDir} && n in d2.top - {OutputDir};
      assert n in d2.top - {StageDir} && n in d3.top - {StageDir};
    }
    forall i | i in d1.nodes ensures i in d3.nodes && d3.nodes[i] == d1.nodes[i] {
      assert i in d.nodes - (ChildInos(d, StageDir) + ChildInos(d, OutputDir));
      assert i !in OwnedInos(s.outputFiles) && i !in OwnedInos(s.stageFiles);
    }
    forall n | n in d3.top && n != StageDir && n != OutputDir ensures n in d1.top {
      assert n in d3.top - {StageDir} && n in d2.top - {StageDir};
      assert n in d2.top - {OutputDir} && n in d.top - {OutputDir};
      assert n in d.top - {StageDir, OutputDir};
    }
  }

  const NO_SESSION := Session(None, None, map[], map[])

  /** The cleanup after a failure: complete if both parts say so, harmless always. */
  lemma AfterCleanup(d1: Disk, d: Disk, d2: Disk, d3: Disk, s: Session, outputClean: bool, stageClean: bool)
    requires InProgress(d1, d, s) || (d == d1 && s == NO_SESSION)
    requires TouchedOnly(d, d2, OutputDir, s.outputFiles) && TouchedOnly(d2, d3, StageDir, s.stageFiles)
    requires outputClean ==>
            if s.output.Some? then RemovedOwned(d, d2, OutputDir, s.output.value, s.outputFiles) else d2 == d
    requires stageClean ==>
            if s.stage.Some? then RemovedOwned(d2, d3, StageDir, s.stage.value, s.stageFiles) else d3 == d2
    requires (s.output.None? ==> d2 == d) && (s.stage.None? ==> d3 == d2)
    ensures Extends(d1, d3)
    ensures outputClean && stageClean ==> d3 == d1
  {
    if InProgress(d1, d, s) {
      CleanupExtends(d1, d, d2, d3, s);
      if outputClean && stageClean {
        CleanedUp(d1, d, d2, d3, s);
      }
    }
  }

  // ---- the lock ----

  /** The new lock file does not change what the output directory holds. */
  lemma LockInvisible(decode: Bytes -> Option<Manifest>, sha: Bytes -> string, d0: Disk, d1: Disk)
    requires Consistent(d0) && AddsFile(d0, d1, Top(LockFile))
    ensures OwnedOutput(decode, sha, d1) == OwnedOutput(decode, sha, d0)
    ensures OwnedOutput(decode, sha, d0) ==> Stored(d1) == Stored(d0)
  {
    if OutputDir in d0.top && d0.top[OutputDir].DirAt? {
      forall n | n in d0.top[OutputDir].children
        ensures IsFile(d0, Under(OutputDir, n)) && Lookup(d1, Under(OutputDir, n)) == Lookup(d0, Under(OutputDir, n))
        ensures d1.nodes[Lookup(d1, Under(OutputDir, n)).value] == d0.nodes[Lookup(d0, Under(OutputDir, n)).value]
      {
        NoDangling(d0, Under(OutputDir, n));
      }
    }
    assert WellFormedOutput(d1) == WellFormedOutput(d0);
    if WellFormedOutput(d0) {
      assert Stored(d1) == Stored(d0);
    }
  }

  /** What a run in which nothing fails must answer, from the disk it starts on. */
  function FaultlessOutcome(decode: Bytes -> Option<Manifest>, sha: Bytes -> string, d: Disk,
      files: map<Name, Bytes>): Result<bool, ErrorCode> {
    if LockFile in d.top then Raise(if LockHeld(d) then BuildInProgress else WorkspaceUnsafe)
    else FaultlessWork(decode, sha, d, files)
  }

  function FaultlessWork(decode: Bytes -> Option<Manifest>, sha: Bytes -> string, d: Disk,
      files: map<Name, Bytes>): Result<bool, ErrorCode> {
    if StageDir in d.top then Raise(WorkspaceUnsafe)
    else if OutputDir !in d.top then Ok(true)
    else if !OwnedOutput(decode, sha, d) then Raise(WorkspaceNotOwned)
    else if Stored(d) == files then Ok(false)
    else Raise(BundleContractFailed)
  }

  lemma DescribedSizes(decode: Bytes -> Option<Manifest>, sha: Bytes -> string, files: map<Name, Bytes>)
    requires HasFiveFiles(files)
    ensures ManifestDescribes(decode, sha, files) ==> forall n :: n in files ==> |files[n]| <= OUTPUT_FILE_MAX_BYTES
  {
    if ManifestDescribes(decode, sha, files) {
      var m := ParseOwnedManifest(decode, files[ManifestJson]).value;
      forall n | n in files ensures |files[n]| <= OUTPUT_FILE_MAX_BYTES {
        if n != ManifestJson {
          var k :| 0 <= k < 4 && OUTPUT_FILENAMES[k] == n;
          assert RecordDescribes(sha, m.files[k], files[OUTPUT_FILENAMES[k]]) && RecordAccepted(m.files[k]);
        }
      }
    }
  }

  /** A bundle outlives everything that only extends the disk. */
  lemma OutputSurvives(d: Disk, d': Disk, files: map<Name, Bytes>)
    requires OutputMatches(d, files) && Extends(d, d')
    ensures OutputMatches(d', files)
  {
    forall n | n in OutputNames()
      ensures Readable(d', Under(OutputDir, n), OUTPUT_FILE_MAX_BYTES)
      ensures BytesAt(d', Under(OutputDir, n)) == BytesAt(d, Under(OutputDir, n))
    {
      assert Readable(d, Under(OutputDir, n), OUTPUT_FILE_MAX_BYTES);
    }
    assert Stored(d') == Stored(d);
  }

  lemma AfterPublish(decode: Bytes -> Option<Manifest>, sha: Bytes -> string, d0: Disk, d: Disk,
                     first: map<Name, Bytes>, second: map<Name, Bytes>)
    requires HasFiveFiles(first) && PublishedOver(d0, d, first) && ManifestDescribes(decode, sha, first)
    ensures FaultlessOutcome(decode, sha, d,
        second) == if second == first then Ok(false) else Raise(BundleContractFailed)
    ensures OutputDir in d.top && OutputMatches(d, first) && Stored(d) == first
  {
    assert LockFile !in d.top - {OutputDir} && StageDir !in d.top - {OutputDir};
  }

  lemma PublishedWhereAbsent(d0: Disk, d: Disk, files: map<Name, Bytes>)
    requires PublishedOver(d0, d, files)
    ensures OutputDir !in d0.top && OutputMatches(d, files)
  {
  }

  lemma SameExtends(d: Disk)
    ensures Extends(d, d)
  {
  }

  lemma LockExtends(d0: Disk, d: Disk)
    requires d == d0 || AddsFile(d0, d, Top(LockFile))
    ensures Extends(d0, d)
  {
  }

  lemma LockSurvives(d0: Disk, d1: Disk, d: Disk, lock: FileIdentity, stamp: int)
    requires AddsFile(d0, d1, Top(LockFile)) && OwnedFile(d1, Top(LockFile), lock, 1) && Extends(d1, d)
    ensures OwnedFile(d, Top(LockFile), lock, 1)
    ensures Extends(d0, d)
    ensures Extends(d0, RemoveLink(d, Top(LockFile), stamp))
    ensures d == d1 ==> RemoveLink(d, Top(LockFile), stamp) == d0
  {
    assert d.top[LockFile] == d1.top[LockFile];
    var d' := RemoveLink(d, Top(LockFile), stamp);
    if d == d1 {
      assert d'.top == d0.top;
      assert d'.nodes == d0.nodes;
    }
  }

  lemma SessionExtends(d1: Disk, d: Disk, s: Session)
    requires InProgress(d1, d, s)
    ensures Extends(d1, d)
  {
    forall n | n in d1.top ensures n in d.top && d.top[n] == d1.top[n] {
      assert n in d.top - {StageDir, OutputDir};
    }
    forall i | i in d1.nodes ensures i in d.nodes && d.nodes[i] == d1.nodes[i] {
      assert i in d.nodes - (ChildInos(d, StageDir) + ChildInos(d, OutputDir));
    }
    forall n | n in d.top && n != StageDir && n != OutputDir ensures n in d1.top {
      assert n in d.top - {StageDir, OutputDir};
    }
  }

  lemma PublishedAfterRelease(d0: Disk, d1: Disk, d: Disk, s: Session, lock: FileIdentity, files: map<Name, Bytes>,
      stamp: int)
    requires AddsFile(d0, d1, Top(LockFile)) && OwnedFile(d1, Top(LockFile), lock, 1)
    requires OwnedFile(d, Top(LockFile), lock, 1)
    requires InProgress(d1, d, s) && s.stage.None? && s.output.Some? && OutputMatches(d, files)
    ensures PublishedOver(d0, RemoveLink(d, Top(LockFile), stamp), files)
  {
    var d' := RemoveLink(d, Top(LockFile), stamp);
    var ino := Lookup(d1, Top(LockFile)).value;
    SessionExtends(d1, d, s);
    assert d.top[LockFile] == FileAt(ino) && ino !in ChildInos(d, OutputDir);
    assert d'.nodes == d.nodes - {ino} && d'.top == d.top - {LockFile};
    ReleasedDisk(d0, d1, d, d', ino);
    OutputKept(d, d', ino);
  }

  lemma ReleasedDisk(d0: Disk, d1: Disk, d: Disk, d': Disk, ino: Ino)
    requires LockFile !in d0.top && ino !in d0.nodes && ino in d1.nodes && ino !in ChildInos(d, OutputDir)
    requires d1.top == d0.top[LockFile := FileAt(ino)] && d1.nodes == d0.nodes[ino := d1.nodes[ino]]
    requires StageDir !in d.top && d.top - {StageDir, OutputDir} == d1.top
    requires d.nodes - (ChildInos(d, StageDir) + ChildInos(d, OutputDir)) == d1.nodes
    requires d'.nodes == d.nodes - {ino} && d'.top == d.top - {LockFile}
    ensures d'.top - {OutputDir} == d0.top
    ensures ChildInos(d', OutputDir) == ChildInos(d, OutputDir)
    ensures d'.nodes - ChildInos(d', OutputDir) == d0.nodes
  {
    var inos := ChildInos(d, OutputDir);
    assert d.top - {OutputDir} == d1.top;
    assert ChildInos(d, StageDir) == {} && {} + inos == inos;
    assert d'.top - {OutputDir} == d1.top - {LockFile} == d0.top;
    assert d.nodes - {ino} - inos == d1.nodes - {ino};
    assert d1.nodes - {ino} == d0.nodes;
  }

  /** Deleting a file outside the output directory does not change what that holds. */
  lemma OutputKept(d: Disk, d': Disk, ino: Ino)
    requires WellFormedOutput(d) && ino !in ChildInos(d, OutputDir)
    requires OutputDir in d'.top && d'.top[OutputDir] == d.top[OutputDir] && d'.nodes == d.nodes - {ino}
    ensures WellFormedOutput(d') && Stored(d') == Stored(d)
  {
    forall n | n in OutputNames()
      ensures Readable(d', Under(OutputDir, n), OUTPUT_FILE_MAX_BYTES)
      ensures BytesAt(d', Under(OutputDir, n)) == BytesAt(d, Under(OutputDir, n))
    {
      assert Readable(d, Under(OutputDir, n), OUTPUT_FILE_MAX_BYTES);
      assert d.top[OutputDir].children[n] in ChildInos(d, OutputDir);
      assert Lookup(d', Under(OutputDir, n)) == Lookup(d, Under(OutputDir, n));
    }
    assert Stored(d') == Stored(d);
  }

  // ---- deleting an owned directory ----

  /** The entries of `n` outside `todo` are gone, and they all were owned files. */
  ghost predicate CleanedUpTo(d0: Disk, d: Disk, n: Name, todo: set<Name>, owned: map<Name, FileIdentity>) {
    && n in d0.top && d0.top[n].DirAt?
    && var children := d0.top[n].children;
       && todo <= children.Keys <= owned.Keys
       && d.top == d0.top[n := DirAt(d0.top[n].id, map m | m in todo :: children[m])]
       && d.nodes == d0.nodes - (set m | m in children.Keys - todo :: children[m])
       && (forall m :: m in children.Keys - todo ==> OwnedFile(d0, Under(n, m), owned[m], 1))
  }

  lemma CleanupStart(d0: Disk, n: Name)
    requires n in d0.top && d0.top[n].DirAt?
    ensures d0.top[n := DirAt(d0.top[n].id, map m | m in d0.top[n].children.Keys :: d0.top[n].children[m])] == d0.top
  {
    var children := d0.top[n].children;
    assert (map m | m in children.Keys :: children[m]) == children;
  }

  lemma CleanupStep(d0: Disk, d: Disk, n: Name, todo: set<Name>, m: Name, owned: map<Name, FileIdentity>, stamp: int)
    requires CleanedUpTo(d0, d, n, todo, owned) && m in todo
    requires OwnedFile(d0, Under(n, m), owned[m], 1) && OwnedFile(d, Under(n, m), owned[m], 1)
    ensures CleanedUpTo(d0, RemoveLink(d, Under(n, m), stamp), n, todo - {m}, owned)
  {
    var children := d0.top[n].children;
    var d' := RemoveLink(d, Under(n, m), stamp);
    var rest := todo - {m};
    assert (map k | k in todo :: children[k]) - {m} == map k | k in rest :: children[k];
    assert d'.top == d0.top[n := DirAt(d0.top[n].id, map k | k in rest :: children[k])];
    assert (set k | k in children.Keys - rest :: children[k]) == (set k | k in children.Keys - todo ::
        children[k]) + {children[m]};
  }

  lemma CleanupEnd(d0: Disk, d: Disk, n: Name, owned: map<Name, FileIdentity>)
    requires CleanedUpTo(d0, d, n, {}, owned)
    ensures d.top[n].children == map[] && d.top - {n} == d0.top - {n}
    ensures d.nodes == d0.nodes - d0.top[n].children.Values
  {
    var children := d0.top[n].children;
    assert (set m | m in children.Keys - {} :: children[m]) == children.Values;
  }

  lemma CleanupTouched(d0: Disk, d: Disk, n: Name, todo: set<Name>, owned: map<Name, FileIdentity>)
    requires CleanedUpTo(d0, d, n, todo, owned)
    ensures TouchedOnly(d0, d, n, owned)
  {
    var children := d0.top[n].children;
    forall m | m in children.Keys - todo ensures children[m] in OwnedInos(owned) {
      assert OwnedFile(d0, Under(n, m), owned[m], 1);
      assert m in owned && owned[m].ino == children[m];
    }
  }

  /** Files not yet deleted keep their inode: no two names share a file of link count one. */
  lemma CleanupKeepsRest(d0: Disk, d: Disk, n: Name, todo: set<Name>, m: Name, owned: map<Name, FileIdentity>)
    requires Consistent(d0) && CleanedUpTo(d0, d, n, todo, owned) && m in todo
    ensures OwnedFile(d, Under(n, m), owned[m], 1) == OwnedFile(d0, Under(n, m), owned[m], 1)
  {
    var children := d0.top[n].children;
    assert Lookup(d, Under(n, m)) == Lookup(d0, Under(n, m)) == Some(children[m]);
    forall k | k in children.Keys - todo ensures children[k] != children[m] {
      if children[k] == children[m] {
        assert OwnedFile(d0, Under(n, k), owned[k], 1);
        assert Lookup(d0, Under(n, k)) == Lookup(d0, Under(n, m));
        SingleName(d0, Under(n, k), Under(n, m));
      }
    }
  }
}
