/** Safety of every interleaving of builders that share one `.local`
    (tools/local-stack/build_submission_bundle.py). */
module ConcurrentBuilders {
  import opened Basics
  import opened LocalDisk
  import opened BundleFiles
  import opened BundleState
  import opened BuilderSteps

  // ---- what one builder under the lock knows ----

  function Alive(lockIno: Ino, s: Session, d: Disk): set<Ino> {
    {lockIno} +
    (if s.stage.Some? then ChildInos(d, StageDir) else {}) +
    (if s.output.Some? then ChildInos(d, OutputDir) else {})
  }

  /** File `n` in `dir` is a plain file with this many links and these bytes. */
  predicate FileIs(d: Disk, dir: Name, n: Name, bytes: Bytes, links: nat) {
    && IsFile(d, Under(dir, n))
    && var node := d.nodes[Lookup(d, Under(dir, n)).value];
       node.regular && node.links == links && node.bytes == bytes
  }

  /** `dir` holds exactly the names `names`, all recorded except possibly `but`. */
  ghost predicate Holding(d: Disk, dir: Name, names: set<Name>, owned: map<Name, FileIdentity>,
      files: map<Name, Bytes>, but: set<Name>) {
    && dir in d.top && d.top[dir].DirAt?
    && d.top[dir].children.Keys == names
    && (forall n :: n in names - but ==>
        n in owned && n in files && OwnedFile(d, Under(dir, n), owned[n], 1) && FileIs(d, dir, n, files[n], 1))
  }

  ghost predicate StagedOnly(s: Session) {
    s.stage.Some? && s.output.None? && s.outputFiles == map[]
  }

  /** The bundle between the two directories. */
  ghost predicate Between(s: Session, files: map<Name, Bytes>, d: Disk, staged: set<Name>, published: set<Name>,
      but: set<Name>) {
    && s.stage.Some? && s.output.Some?
    && Holding(d, StageDir, staged, s.stageFiles, files, but)
    && Holding(d, OutputDir, published, s.outputFiles, files, but)
  }

  /** File `i` has been created in the staging directory and is being filled. */
  ghost predicate Partial(s: Session, files: map<Name, Bytes>, d: Disk, i: nat)
    requires i < 5 && HasFiveFiles(files)
  {
    var n := FileName(i);
    && StagedOnly(s)
    && Holding(d, StageDir, Prefix(i + 1), s.stageFiles, files, {n})
    && IsFile(d, Under(StageDir, n))
    && FileIs(d, StageDir, n, BytesAt(d, Under(StageDir, n)), 1)
    && BytesAt(d, Under(StageDir, n)) <= files[n]
  }

  /** File `i` is linked in both directories. */
  ghost predicate Handing(s: Session, files: map<Name, Bytes>, d: Disk, i: nat)
    requires i < 5 && HasFiveFiles(files)
  {
    var n := FileName(i);
    && Between(s, files, d, Remaining(i), Prefix(i + 1), {n})
    && FileIs(d, StageDir, n, files[n], 2)
    && Lookup(d, Under(OutputDir, n)) == Lookup(d, Under(StageDir, n))
  }

  /** File `i` is in the output directory only, not yet read back. */
  ghost predicate Handed(s: Session, files: map<Name, Bytes>, d: Disk, i: nat)
    requires i < 5 && HasFiveFiles(files)
  {
    var n := FileName(i);
    && Between(s, files, d, Remaining(i + 1), Prefix(i + 1), {n})
    && FileIs(d, OutputDir, n, files[n], 1)
  }

  ghost predicate Complete(s: Session, files: map<Name, Bytes>, d: Disk) {
    && s.stage.None? && s.output.Some?
    && Holding(d, OutputDir, OutputNames(), s.outputFiles, files, {})
  }

  /** Phase facts of the forward path, by program counter. */
  ghost predicate Forward(b: Builder, d: Disk)
    requires HasFiveFiles(b.files)
  {
    match b.pc
    case FillingLock | CheckStage | CheckOutput | ReadingOutput | MakingStage => b.session == NO_SESSION
    case Staging(i) =>
      i < 5 && StagedOnly(b.session) && Holding(d, StageDir, Prefix(i), b.session.stageFiles, b.files, {})
    case Filling(i) => i < 5 && Partial(b.session, b.files, d, i)
    case MakingOutput =>
      StagedOnly(b.session) && Holding(d, StageDir, OutputNames(), b.session.stageFiles, b.files, {})
    case SourceGate => Between(b.session, b.files, d, Remaining(4), Prefix(4), {})
    case Linking(i) => i < 5 && Between(b.session, b.files, d, Remaining(i), Prefix(i), {})
        && (i == 4 ==> b.sourceChecked)
    case Unstaging(i) => i < 5 && Handing(b.session, b.files, d, i) && (i == 4 ==> b.sourceChecked)
    case UnstageUnlink(i) => i < 5 && Handing(b.session, b.files, d, i) && (i == 4 ==> b.sourceChecked)
    case ReadBack(i) => i < 5 && Handed(b.session, b.files, d, i) && (i == 4 ==> b.sourceChecked)
    case RemovingStage => Between(b.session, b.files, d, {}, OutputNames(), {}) && b.sourceChecked
    case Verifying => Complete(b.session, b.files, d) && b.sourceChecked
    case ReleaseCheck | ReleaseUnlink =>
      && OutputMatches(d, b.files)
      && if b.present then b.session == NO_SESSION else Complete(b.session, b.files, d) && b.sourceChecked
    case _ => false
  }

  /** Facts that hold of a builder from taking the lock to releasing it, whether it
      is moving forward or cleaning up. */
  ghost predicate Tenure(d0: Disk, lockIno: Ino, lock: Option<FileIdentity>, s: Session, d: Disk) {
    && LockFile !in d0.top
    && LockFile in d.top && d.top[LockFile] == FileAt(lockIno) && lockIno in d.nodes
    && d.nodes[lockIno].regular && d.nodes[lockIno].links == 1
    && (lock.Some? ==> lock.value == Identity(d, lockIno))
    && (s.stage.Some? ==> StageDir !in d0.top && IsDir(d, StageDir, s.stage.value))
    && (s.output.Some? ==> OutputDir !in d0.top && IsDir(d, OutputDir, s.output.value))
  }

  ghost predicate Cleaning(b: Builder, d: Disk) {
    match b.pc
    case Clear(dir) => CleaningDir(b, dir)
    case Pick(dir) => CleaningDir(b, dir) && DirOf(b.session, dir).Some? && AllOnRecord(b.session, d, dir)
    case Drop(dir, n) =>
      && CleaningDir(b, dir) && DirOf(b.session, dir).Some? && AllOnRecord(b.session, d, dir)
      && IsFile(d, Under(dir, n)) && d.nodes[Lookup(d, Under(dir, n)).value].links == 1
    case ReleaseCheck | ReleaseUnlink => b.clean ==> b.session.output.None? && b.session.stage.None?
    case _ => false
  }

  /** Nothing is in the directory that the session does not remember. */
  predicate AllOnRecord(s: Session, d: Disk, dir: Name) {
    dir in d.top && d.top[dir].DirAt? && d.top[dir].children.Keys <= FilesOf(s, dir).Keys
  }

  ghost predicate CleaningDir(b: Builder, dir: Name) {
    dir == OutputDir || (dir == StageDir && (b.clean ==> b.session.output.None?))
  }

  ghost predicate HolderInv(d0: Disk, b: Builder, d: Disk)
    requires HasFiveFiles(b.files)
  {
    && Tenure(d0, b.lockIno, b.lock, b.session, d)
    && b.own == Alive(b.lockIno, b.session, d)
    && (b.pc.FillingLock? <==> b.lock.None?)
    && (b.present ==> b.pc.ReleaseCheck? || b.pc.ReleaseUnlink?)
    && (!b.failed ==> b.clean && Forward(b, d))
    && (b.failed ==> !b.present && Cleaning(b, d))
  }

  ghost predicate Succeeded(b: Builder) {
    b.pc == Done(Published) || b.pc == Done(AlreadyThere)
  }

  /** Stopped without leaving anything of its own behind. */
  ghost predicate LeftNothing(b: Builder) {
    b.pc == Done(Refused) || b.pc == Done(Failed) || b.pc == Done(AlreadyThere)
  }

  /** The directories a session remembers are the ones that are there. */
  ghost predicate Placed(s: Session, d: Disk) {
    && (s.stage.Some? ==> IsDir(d, StageDir, s.stage.value))
    && (s.output.Some? ==> IsDir(d, OutputDir, s.output.value))
  }

  /** What is true of a builder that is not under the lock. */
  ghost predicate OutsiderInv(b: Builder, d: Disk)
    requires HasFiveFiles(b.files)
  {
    && (b.pc.Start? || b.pc.Opening? ==> b == Idle(b.files).(pc := b.pc))
    && (LeftNothing(b) ==> b.own == {} && b.session.stage.None? && b.session.output.None?)
    && (b.pc == Done(Published) ==> b.own == ChildInos(d, OutputDir) && b.session.stage.None? && b.session.output.Some?)
    && Placed(b.session, d)
    && (Succeeded(b) ==> OutputMatches(d, b.files))
  }

  /** Everything that was in `.local` at the start is still there, untouched. */
  ghost predicate Kept(d0: Disk, d: Disk) {
    && (forall n :: n in d0.top ==> n in d.top && d.top[n] == d0.top[n])
    && (forall i :: i in d0.nodes ==> i in d.nodes && d.nodes[i] == d0.nodes[i])
  }

  // ---- what one step may touch ----

  predicate SameAt(d: Disk, d': Disk, n: Name) {
    (n in d.top <==> n in d'.top) && (n in d.top ==> d'.top[n] == d.top[n])
  }

  /** Link counts stay right and nothing outside the builder's own is affected. */
  ghost predicate Frame(b: Builder, d: Disk, b': Builder, d': Disk) {
    && Consistent(d') && SameExcess(d, d')
    && b'.files == b.files
    && d'.nodes.Keys == (d.nodes.Keys - b.own) + b'.own
    && b'.own !! (d.nodes.Keys - b.own)
    && (forall k :: k in d.nodes && k !in b.own ==> k in d'.nodes && d'.nodes[k] == d.nodes[k])
    && (forall n :: n != LockFile && n != StageDir && n != OutputDir ==> SameAt(d, d', n))
    && (LockFile in d.top && !HoldsLock(b) ==> SameAt(d, d', LockFile))
    && (LockFile in d'.top ==> d'.top[LockFile].FileAt? || SameAt(d, d', LockFile))
    && (StageDir in d.top && b.session.stage.None? ==> SameAt(d, d', StageDir))
    && (OutputDir in d.top && b.session.output.None? ==> SameAt(d, d', OutputDir))
  }

  lemma FrameStay(b: Builder, d: Disk, b': Builder)
    requires Consistent(d) && b'.files == b.files && b'.own == b.own <= d.nodes.Keys
    ensures Frame(b, d, b', d)
  {
  }

  lemma FrameCreate(b: Builder, d: Disk, b': Builder, p: Path, ino: Ino, stamp: int)
    requires Consistent(d) && b'.files == b.files && b.own <= d.nodes.Keys
    requires Vacant(d, p) && ino !in d.nodes && b'.own == b.own + {ino}
    requires p == Top(LockFile) || (p.Under? && p.dir == StageDir && b.session.stage.Some?)
    ensures Frame(b, d, b', CreateFile(d, p, ino, stamp))
  {
    CreateConserves(d, p, ino, stamp);
  }

  lemma FrameAppend(b: Builder, d: Disk, b': Builder, ino: Ino, chunk: Bytes, stamp: int)
    requires Consistent(d) && b'.files == b.files && b'.own == b.own <= d.nodes.Keys && ino in b.own
    ensures Frame(b, d, b', Append(d, ino, chunk, stamp))
  {
    AppendConserves(d, ino, chunk, stamp);
  }

  lemma FrameLink(b: Builder, d: Disk, b': Builder, n: Name, stamp: int)
    requires Consistent(d) && b'.files == b.files && b'.own == b.own <= d.nodes.Keys
    requires IsFile(d, Under(StageDir, n)) && Vacant(d, Under(OutputDir, n))
    requires Lookup(d, Under(StageDir, n)).value in b.own
    requires b.session.output.Some?
    ensures Frame(b, d, b', Linked(d, n, stamp))
  {
    AddLinkConserves(d, Under(StageDir, n), Under(OutputDir, n), stamp);
  }

  lemma FrameUnlink(b: Builder, d: Disk, p: Path, c: Choice, pc: Pc)
    requires Consistent(d) && b.own <= d.nodes.Keys && IsFile(d, p) && Lookup(d, p).value in b.own
    requires (p == Top(LockFile) && HoldsLock(b))
        || (p.Under? && DirOf(b.session, p.dir).Some? && (p.dir == StageDir || p.dir == OutputDir))
    ensures var next := Unlink(b, d, p, c, pc); Frame(b, d, next.b, next.d)
  {
    RemoveLinkConserves(d, p, c.stamp);
    NoDangling(d, p);
  }

  lemma FrameMkdir(b: Builder, d: Disk, b': Builder, n: Name, id: DirId)
    requires Consistent(d) && b'.files == b.files && b'.own == b.own <= d.nodes.Keys
    requires n !in d.top && (n == StageDir || n == OutputDir)
    ensures Frame(b, d, b', MakeDir(d, n, id))
  {
    DirEditsConserve(d, n, id);
  }

  lemma FrameRmdir(b: Builder, d: Disk, b': Builder, n: Name)
    requires Consistent(d) && b'.files == b.files && b'.own == b.own <= d.nodes.Keys
    requires n in d.top && d.top[n].DirAt? && d.top[n].children == map[]
    requires (n == StageDir || n == OutputDir) && DirOf(b.session, n).Some?
    ensures Frame(b, d, b', RemoveDir(d, n))
  {
    DirEditsConserve(d, n, 0);
  }

  /** A builder's own inodes exist. */
  lemma OwnExists(d0: Disk, b: Builder, d: Disk)
    requires Consistent(d) && HasFiveFiles(b.files) && HolderInv(d0, b, d)
    ensures b.own <= d.nodes.Keys
  {
    forall i | i in b.own ensures i in d.nodes {
      if i != b.lockIno {
        var dir := if b.session.stage.Some? && i in ChildInos(d, StageDir) then StageDir else OutputDir;
        var n :| n in d.top[dir].children && d.top[dir].children[n] == i;
        NoDangling(d, Under(dir, n));
      }
    }
  }

  // ---- how edits move the recorded facts ----

  lemma KidsBind(d: Disk, d': Disk, dir: Name, n: Name, ino: Ino)
    requires Vacant(d, Under(dir, n)) && d'.top == Bind(d, Under(dir, n), ino).top
    ensures ChildInos(d', dir) == ChildInos(d, dir) + {ino}
    ensures forall o :: o != dir ==> ChildInos(d', o) == ChildInos(d, o)
  {
    var kids, kids' := d.top[dir].children, d'.top[dir].children;
    assert kids' == kids[n := ino];
    forall i | i in kids.Values ensures i in kids'.Values {
      var m :| m in kids && kids[m] == i;
      assert kids'[m] == i;
    }
    assert kids'[n] == ino;
  }

  /** Removing one of the names of a file from a directory that has no other. */
  lemma KidsUnbind(d: Disk, d': Disk, dir: Name, n: Name)
    requires Lookup(d, Under(dir, n)).Some? && d'.top == Unbind(d, Under(dir, n)).top
    requires forall m :: m in d.top[dir].children && m != n ==> d.top[dir].children[m] != d.top[dir].children[n]
    ensures ChildInos(d', dir) == ChildInos(d, dir) - {Lookup(d, Under(dir, n)).value}
    ensures forall o :: o != dir ==> ChildInos(d', o) == ChildInos(d, o)
  {
    var kids, kids' := d.top[dir].children, d'.top[dir].children;
    assert kids' == kids - {n};
    forall i | i in kids.Values && i != kids[n] ensures i in kids'.Values {
      var m :| m in kids && kids[m] == i;
      assert kids'[m] == i;
    }
  }

  /** A file of link count one occurs nowhere else. */
  lemma Unshared(d: Disk, p: Path, dir: Name)
    requires Consistent(d) && IsFile(d, p) && d.nodes[Lookup(d, p).value].links == 1
    ensures (p.Top? || p.dir != dir) ==> Lookup(d, p).value !in ChildInos(d, dir)
    ensures p.Under? && p.dir == dir ==> forall m :: m in d.top[dir].children && m != p.name ==>
            d.top[dir].children[m] != Lookup(d, p).value
  {
    var ino := Lookup(d, p).value;
    if dir in d.top && d.top[dir].DirAt? {
      forall m | m in d.top[dir].children && d.top[dir].children[m] == ino ensures p == Under(dir, m) {
        assert Lookup(d, Under(dir, m)) == Some(ino);
        SingleName(d, p, Under(dir, m));
      }
    }
  }

  lemma HoldingCreate(d: Disk, names: set<Name>, owned: map<Name, FileIdentity>, files: map<Name, Bytes>, n: Name,
      ino: Ino, stamp: int)
    requires Holding(d, StageDir, names, owned, files, {}) && n !in names && ino !in d.nodes
    ensures Vacant(d, Under(StageDir, n))
    ensures Holding(CreateFile(d, Under(StageDir, n), ino, stamp), StageDir, names + {n}, owned, files, {n})
  {
    var d' := CreateFile(d, Under(StageDir, n), ino, stamp);
    forall m | m in names + {n} - {n}
      ensures m in owned && m in files && OwnedFile(d', Under(StageDir, m), owned[m], 1)
      ensures FileIs(d', StageDir, m, files[m], 1)
    {
      assert OwnedFile(d, Under(StageDir, m), owned[m], 1);
      assert Lookup(d', Under(StageDir, m)) == Lookup(d, Under(StageDir, m));
    }
  }

  lemma HoldingAppend(d: Disk, names: set<Name>, owned: map<Name, FileIdentity>, files: map<Name, Bytes>, n: Name,
      chunk: Bytes, stamp: int)
    requires Consistent(d) && Holding(d, StageDir, names, owned, files, {n})
    requires IsFile(d, Under(StageDir, n)) && d.nodes[Lookup(d, Under(StageDir, n)).value].links == 1
    ensures Holding(Append(d, Lookup(d, Under(StageDir, n)).value, chunk, stamp), StageDir, names, owned, files, {n})
  {
    var ino := Lookup(d, Under(StageDir, n)).value;
    var d' := Append(d, ino, chunk, stamp);
    Unshared(d, Under(StageDir, n), StageDir);
    forall m | m in names - {n}
      ensures OwnedFile(d', Under(StageDir, m), owned[m], 1) && FileIs(d', StageDir, m, files[m], 1)
    {
      assert OwnedFile(d, Under(StageDir, m), owned[m], 1);
      assert Lookup(d', Under(StageDir, m)) == Lookup(d, Under(StageDir, m));
    }
  }

  /** Facts about files other than the one an operation works on carry over. */
  lemma HoldingCarries(d: Disk, d': Disk, dir: Name, names: set<Name>, owned: map<Name, FileIdentity>,
      files: map<Name, Bytes>,
                       but: set<Name>, names': set<Name>, owned': map<Name, FileIdentity>, but': set<Name>, ino: Ino)
    requires Holding(d, dir, names, owned, files, but)
    requires dir in d'.top && d'.top[dir].DirAt? && d'.top[dir].children.Keys == names'
    requires names' - but' <= names - but
    requires forall m :: m in names' - but' ==> m in owned' && m in owned && owned'[m] == owned[m]
    requires forall m :: m in names' - but' ==> d'.top[dir].children[m] == d.top[dir].children[m] != ino
    requires forall k :: k in d.nodes && k != ino ==> k in d'.nodes && d'.nodes[k] == d.nodes[k]
    ensures Holding(d', dir, names', owned', files, but')
  {
    forall m | m in names' - but'
      ensures m in owned' && m in files && OwnedFile(d', Under(dir, m), owned'[m], 1) && FileIs(d', dir, m, files[m], 1)
    {
      assert OwnedFile(d, Under(dir, m), owned[m], 1) && FileIs(d, dir, m, files[m], 1);
      assert Lookup(d', Under(dir, m)) == Lookup(d, Under(dir, m));
    }
  }

  // ---- one lemma for each step of the lock holder ----

  ghost predicate StepKeeps(d0: Disk, b: Builder, d: Disk, next: Config) {
    && HasFiveFiles(next.b.files)
    && Frame(b, d, next.b, next.d)
    && HoldsLock(next.b)
    && HolderInv(d0, next.b, next.d)
  }

  lemma StepFail(d0: Disk, b: Builder, d: Disk)
    requires Consistent(d) && HasFiveFiles(b.files) && HolderInv(d0, b, d) && !b.failed && b.lock.Some? && !b.present
    ensures StepKeeps(d0, b, d, Fail(b, d))
  {
    hide Consistent, Frame, Tenure, Alive, OutputMatches, Holding;
    OwnExists(d0, b, d);
    FrameStay(b, d, Fail(b, d).b);
  }

  lemma StepFillingLock(d0: Disk, b: Builder, d: Disk, c: Choice)
    requires Consistent(d) && HasFiveFiles(b.files) && HolderInv(d0, b, d) && b.pc.FillingLock?
    ensures var next := DoFillingLock(b, d, c);
            if HoldsLock(next.b) then StepKeeps(d0, b, d, next)
            else Frame(b, d, next.b, next.d) && OutsiderInv(next.b, next.d)
  {
    hide Consistent, Frame, OutputMatches, Holding, HasFiveFiles;
    OwnExists(d0, b, d);
    var next := DoFillingLock(b, d, c);
    if next.d == d {
      FrameStay(b, d, next.b);
    } else {
      var at := |d.nodes[b.lockIno].bytes|;
      var upTo := if 1 <= c.amount && at + c.amount <= |LOCK_BYTES| then at + c.amount else |LOCK_BYTES|;
      FrameAppend(b, d, next.b, b.lockIno, LOCK_BYTES[at..upTo], c.stamp);
    }
  }

  lemma StepCheckStage(d0: Disk, b: Builder, d: Disk)
    requires Consistent(d) && HasFiveFiles(b.files) && HolderInv(d0, b, d) && !b.failed && b.pc.CheckStage?
    ensures StepKeeps(d0, b, d, DoCheckStage(b, d))
  {
    hide Consistent, Frame, Tenure, Alive, OutputMatches, Holding, HasFiveFiles, Prefix, Remaining, OutputNames;
    OwnExists(d0, b, d);
    FrameStay(b, d, DoCheckStage(b, d).b);
    StepFail(d0, b, d);
  }

  lemma StepCheckOutput(d0: Disk, b: Builder, d: Disk)
    requires Consistent(d) && HasFiveFiles(b.files) && HolderInv(d0, b, d) && !b.failed && b.pc.CheckOutput?
    ensures StepKeeps(d0, b, d, DoCheckOutput(b, d))
  {
    hide Consistent, Frame, Tenure, Alive, OutputMatches, Holding, HasFiveFiles, Prefix, Remaining, OutputNames;
    OwnExists(d0, b, d);
    FrameStay(b, d, DoCheckOutput(b, d).b);
    StepFail(d0, b, d);
  }

  lemma StepReadingOutput(d0: Disk, b: Builder, d: Disk, c: Choice)
    requires Consistent(d) && HasFiveFiles(b.files) && HolderInv(d0, b, d) && !b.failed && b.pc.ReadingOutput?
    ensures StepKeeps(d0, b, d, DoReadingOutput(b, d, c))
  {
    hide Consistent, Frame, Tenure, Alive, OutputMatches, Holding, HasFiveFiles, Prefix, Remaining, OutputNames;
    OwnExists(d0, b, d);
    FrameStay(b, d, DoReadingOutput(b, d, c).b);
    StepFail(d0, b, d);
  }

  lemma StepSourceGate(d0: Disk, b: Builder, d: Disk, c: Choice)
    requires Consistent(d) && HasFiveFiles(b.files) && HolderInv(d0, b, d) && !b.failed && b.pc.SourceGate?
    ensures StepKeeps(d0, b, d, DoSourceGate(b, d, c))
  {
    hide Consistent, Frame, Tenure, Alive, OutputMatches, Holding, HasFiveFiles, Prefix, Remaining, OutputNames;
    OwnExists(d0, b, d);
    FrameStay(b, d, DoSourceGate(b, d, c).b);
    StepFail(d0, b, d);
  }

  lemma StepVerifying(d0: Disk, b: Builder, d: Disk, c: Choice)
    requires Consistent(d) && HasFiveFiles(b.files) && HolderInv(d0, b, d) && !b.failed && b.pc.Verifying?
    ensures StepKeeps(d0, b, d, DoVerifying(b, d, c))
  {
    hide Consistent, Frame, Tenure, Alive, OutputMatches, Holding, HasFiveFiles, Prefix, Remaining, OutputNames;
    OwnExists(d0, b, d);
    FrameStay(b, d, DoVerifying(b, d, c).b);
    StepFail(d0, b, d);
  }

  /** The lock and the directories stay put. */
  lemma TenureMoves(d0: Disk, lockIno: Ino, lock: Option<FileIdentity>, s: Session, d: Disk, s': Session, d': Disk)
    requires Tenure(d0, lockIno, lock, s, d)
    requires SameAt(d, d', LockFile) && lockIno in d'.nodes && d'.nodes[lockIno] == d.nodes[lockIno]
    requires s'.stage.Some? ==> StageDir !in d0.top && IsDir(d', StageDir, s'.stage.value)
    requires s'.output.Some? ==> OutputDir !in d0.top && IsDir(d', OutputDir, s'.output.value)
    ensures Tenure(d0, lockIno, lock, s', d')
  {
  }

  lemma TenureCreate(d0: Disk, lockIno: Ino, lock: Option<FileIdentity>, s: Session, d: Disk, n: Name, ino: Ino,
      stamp: int)
    requires Tenure(d0, lockIno, lock, s, d) && Vacant(d, Under(StageDir, n)) && ino !in d.nodes
    ensures Tenure(d0, lockIno, lock, s, CreateFile(d, Under(StageDir, n), ino, stamp))
  {
  }

  lemma StepMakingStage(d0: Disk, b: Builder, d: Disk, c: Choice)
    requires Consistent(d) && HasFiveFiles(b.files) && HolderInv(d0, b, d) && Kept(d0, d) && b.pc.MakingStage?
    requires !b.failed
    ensures StepKeeps(d0, b, d, DoMakingStage(b, d, c))
  {
    hide Consistent, Frame, OutputMatches, HasFiveFiles, Remaining, OutputNames;
    OwnExists(d0, b, d);
    StepFail(d0, b, d);
    if c.ok && StageDir !in d.top {
      FrameMkdir(b, d, DoMakingStage(b, d, c).b, StageDir, c.id);
      PrefixAll();
    }
  }

  lemma StepStaging(d0: Disk, b: Builder, d: Disk, c: Choice)
    requires Consistent(d) && HasFiveFiles(b.files) && HolderInv(d0, b, d) && b.pc.Staging? && !b.failed
    ensures StepKeeps(d0, b, d, DoStaging(b, d, c, b.pc.i))
  {
    hide Consistent, HolderInv, StepKeeps, CreateFile, Lookup, FileName;
    assert b.lock.Some? && !b.present && InRange(b.pc) by { ForwardHolder(d0, b, d); }
    if DoStaging(b, d, c, b.pc.i).b.pc == Filling(b.pc.i) {
      StageGoes(d0, b, d, c);
    } else {
      StepFail(d0, b, d);
    }
  }

  lemma StageGoes(d0: Disk, b: Builder, d: Disk, c: Choice)
    requires Consistent(d) && HasFiveFiles(b.files) && HolderInv(d0, b, d) && b.pc.Staging? && !b.failed && b.pc.i < 5
    requires DoStaging(b, d, c, b.pc.i).b.pc == Filling(b.pc.i)
    ensures StepKeeps(d0, b, d, DoStaging(b, d, c, b.pc.i))
  {
    hide Consistent, Frame, Holding, Tenure, Partial, OutputMatches, HasFiveFiles, Prefix, Remaining, OutputNames,
         FileName;
    var i := b.pc.i;
    var n := FileName(i);
    OwnExists(d0, b, d);
    var next := DoStaging(b, d, c, i);
    FrameCreate(b, d, next.b, Under(StageDir, n), c.ino, c.stamp);
    CreateStages(b.session, b.files, d, i, c.ino, c.stamp);
    KidsBind(d, next.d, StageDir, n, c.ino);
    TenureCreate(d0, b.lockIno, b.lock, b.session, d, n, c.ino, c.stamp);
  }

  lemma CreateStages(s: Session, files: map<Name, Bytes>, d: Disk, i: nat, ino: Ino, stamp: int)
    requires HasFiveFiles(files) && i < 5 && ino !in d.nodes && Vacant(d, Under(StageDir, FileName(i)))
    requires StagedOnly(s) && Holding(d, StageDir, Prefix(i), s.stageFiles, files, {})
    ensures Partial(s, files, CreateFile(d, Under(StageDir, FileName(i)), ino, stamp), i)
  {
    hide Holding, Prefix, Remaining, OutputNames, FileName;
    NextName(i);
    HoldingCreate(d, Prefix(i), s.stageFiles, files, FileName(i), ino, stamp);
  }

  lemma NextName(i: nat)
    requires i < 5
    ensures FileName(i) !in Prefix(i) && Prefix(i + 1) == Prefix(i) + {FileName(i)}
    ensures FileName(i) in Remaining(i) && Remaining(i + 1) == Remaining(i) - {FileName(i)}
    ensures FileName(i) !in Remaining(i + 1) && FileName(i) in Prefix(i + 1)
    ensures i == 4 ==> Prefix(i + 1) == OutputNames() && Remaining(i + 1) == {}
  {
    PrefixStep(i);
    RemainingStep(i);
    PrefixAll();
  }

  lemma StepFilling(d0: Disk, b: Builder, d: Disk, c: Choice)
    requires Consistent(d) && HasFiveFiles(b.files) && HolderInv(d0, b, d) && b.pc.Filling? && !b.failed
    ensures StepKeeps(d0, b, d, DoFilling(b, d, c, b.pc.i))
  {
    hide Consistent, Frame, Tenure, Alive, Holding, OutputMatches, Prefix, Remaining, OutputNames, FileName;
    var i := b.pc.i;
    StepFail(d0, b, d);
    var at := |d.nodes[Lookup(d, Under(StageDir, FileName(i))).value].bytes|;
    if c.ok {
      if at < |b.files[FileName(i)]| {
        FillMore(d0, b, d, c);
      } else {
        FillDone(d0, b, d, c);
      }
    }
  }

  lemma FillMore(d0: Disk, b: Builder, d: Disk, c: Choice)
    requires Consistent(d) && HasFiveFiles(b.files) && HolderInv(d0, b, d) && b.pc.Filling? && !b.failed && c.ok
    requires |BytesAt(d, Under(StageDir, FileName(b.pc.i)))| < |b.files[FileName(b.pc.i)]|
    ensures StepKeeps(d0, b, d, DoFilling(b, d, c, b.pc.i))
  {
    hide Consistent, Frame, Holding, OutputMatches, Prefix, Remaining, OutputNames, FileName;
    var i := b.pc.i;
    var n := FileName(i);
    var payload := b.files[n];
    OwnExists(d0, b, d);
    LockUnshared(d0, b, d);
    var next := DoFilling(b, d, c, i);
    var ino := Lookup(d, Under(StageDir, n)).value;
    var at := |d.nodes[ino].bytes|;
    assert ino in ChildInos(d, StageDir);
    var upTo := if 1 <= c.amount && at + c.amount <= |payload| then at + c.amount else |payload|;
    FrameAppend(b, d, next.b, ino, payload[at..upTo], c.stamp);
    HoldingAppend(d, Prefix(i + 1), b.session.stageFiles, b.files, n, payload[at..upTo], c.stamp);
    assert d.nodes[ino].bytes + payload[at..upTo] == payload[..upTo];
    TenureMoves(d0, b.lockIno, b.lock, b.session, d, b.session, next.d);
    assert Partial(b.session, b.files, next.d, i);
  }

  lemma FillDone(d0: Disk, b: Builder, d: Disk, c: Choice)
    requires Consistent(d) && HasFiveFiles(b.files) && HolderInv(d0, b, d) && b.pc.Filling? && !b.failed && c.ok
    requires |BytesAt(d, Under(StageDir, FileName(b.pc.i)))| >= |b.files[FileName(b.pc.i)]|
    ensures StepKeeps(d0, b, d, DoFilling(b, d, c, b.pc.i))
  {
    hide Consistent, Frame, Holding, OutputMatches, Prefix, Remaining, OutputNames, FileName;
    var i := b.pc.i;
    OwnExists(d0, b, d);
    NextName(i);
    FrameStay(b, d, DoFilling(b, d, c, i).b);
    assert BytesAt(d, Under(StageDir, FileName(i))) == b.files[FileName(i)];
    RecordFilled(b.session, b.files, d, i);
  }

  lemma RecordFilled(s: Session, files: map<Name, Bytes>, d: Disk, i: nat)
    requires HasFiveFiles(files) && i < 5 && Partial(s, files, d, i)
    requires BytesAt(d, Under(StageDir, FileName(i))) == files[FileName(i)]
    ensures Holding(d, StageDir, Prefix(i + 1),
        s.stageFiles[FileName(i) := Identity(d, Lookup(d, Under(StageDir, FileName(i))).value)], files, {})
  {
  }

  lemma StepMakingOutput(d0: Disk, b: Builder, d: Disk, c: Choice)
    requires Consistent(d) && HasFiveFiles(b.files) && HolderInv(d0, b, d) && Kept(d0, d) && b.pc.MakingOutput?
    requires !b.failed
    ensures StepKeeps(d0, b, d, DoMakingOutput(b, d, c))
  {
    hide Consistent, HolderInv, StepKeeps, Kept;
    assert b.lock.Some? && !b.present by { ForwardHolder(d0, b, d); }
    if c.ok && OutputDir !in d.top {
      OutputMade(d0, b, d, c);
    } else {
      StepFail(d0, b, d);
    }
  }

  lemma OutputMade(d0: Disk, b: Builder, d: Disk, c: Choice)
    requires Consistent(d) && HasFiveFiles(b.files) && HolderInv(d0, b, d) && Kept(d0, d) && b.pc.MakingOutput?
    requires !b.failed
    requires c.ok && OutputDir !in d.top
    ensures StepKeeps(d0, b, d, DoMakingOutput(b, d, c))
  {
    hide Consistent, Frame, OutputMatches, HasFiveFiles, Prefix, Remaining, OutputNames, Holding;
    OwnExists(d0, b, d);
    var next := DoMakingOutput(b, d, c);
    FrameMkdir(b, d, next.b, OutputDir, c.id);
    PrefixAll();
    LockUnshared(d0, b, d);
    OutputStarts(b.session.stageFiles, b.files, d, c.id, b.lockIno);
    TenureMoves(d0, b.lockIno, b.lock, b.session, d, next.b.session, next.d);
  }

  lemma OutputStarts(stageFiles: map<Name, FileIdentity>, files: map<Name, Bytes>, d: Disk, id: DirId, lockIno: Ino)
    requires Holding(d, StageDir, OutputNames(), stageFiles, files, {}) && OutputDir !in d.top
    requires lockIno !in ChildInos(d, StageDir)
    ensures var d' := MakeDir(d, OutputDir, id);
            Holding(d', StageDir, OutputNames(), stageFiles, files, {}) && Holding(d', OutputDir, {}, map[], files, {})
  {
    hide OutputNames;
    var d' := MakeDir(d, OutputDir, id);
    HoldingCarries(d, d', StageDir, OutputNames(), stageFiles, files, {}, OutputNames(), stageFiles, {}, lockIno);
  }

  /** The lock file is not one of the bundle files. */
  lemma LockUnshared(d0: Disk, b: Builder, d: Disk)
    requires Consistent(d) && HasFiveFiles(b.files) && HolderInv(d0, b, d)
    ensures b.lockIno !in ChildInos(d, StageDir) && b.lockIno !in ChildInos(d, OutputDir)
  {
    Unshared(d, Top(LockFile), StageDir);
    Unshared(d, Top(LockFile), OutputDir);
  }

  lemma StepLinking(d0: Disk, b: Builder, d: Disk, c: Choice)
    requires Consistent(d) && HasFiveFiles(b.files) && HolderInv(d0, b, d) && b.pc.Linking? && !b.failed
    ensures StepKeeps(d0, b, d, DoLinking(b, d, c, b.pc.i))
  {
    hide Consistent, HolderInv, StepKeeps, OwnedFile, Lookup, Linked, FileName;
    assert b.lock.Some? && !b.present && InRange(b.pc) by { ForwardHolder(d0, b, d); }
    if DoLinking(b, d, c, b.pc.i).b.pc == Unstaging(b.pc.i) {
      LinkGoes(d0, b, d, c);
    } else {
      StepFail(d0, b, d);
    }
  }

  lemma ForwardHolder(d0: Disk, b: Builder, d: Disk)
    requires HasFiveFiles(b.files) && HolderInv(d0, b, d) && !b.failed && !b.pc.FillingLock? && !b.pc.ReleaseCheck?
    requires !b.pc.ReleaseUnlink?
    ensures b.lock.Some? && !b.present && InRange(b.pc)
  {
    hide Holding, Tenure, Alive, Handing, Handed, Between, Partial, Complete, OutputMatches;
  }

  /** What the holder's facts consist of while it moves forward. */
  lemma HolderParts(d0: Disk, b: Builder, d: Disk)
    requires HasFiveFiles(b.files) && HolderInv(d0, b, d) && !b.failed
    ensures Tenure(d0, b.lockIno, b.lock, b.session, d) && b.own == Alive(b.lockIno, b.session, d) && Forward(b, d)
    ensures b.clean
  {
    hide Forward, Cleaning, Tenure, Alive;
  }

  /** And how they come together again after a step within the forward path. */
  lemma HolderAgain(d0: Disk, b: Builder, d: Disk, b': Builder, d': Disk)
    requires HasFiveFiles(b.files) && HolderInv(d0, b, d) && !b.failed && HoldsLock(b') && Frame(b, d, b', d')
    requires Tenure(d0, b.lockIno, b.lock, b'.session, d') && b'.own == Alive(b.lockIno, b'.session, d')
    requires b' == b.(pc := b'.pc, session := b'.session, own := b'.own) && Forward(b', d')
    requires !b.present && b.lock.Some? && !b'.pc.FillingLock?
    ensures StepKeeps(d0, b, d, Config(b', d'))
  {
    hide Forward, Cleaning, Tenure, Alive, Consistent;
  }

  /** What linking a staged file into the output leaves and what it adds. */
  lemma LinkedEffects(d: Disk, n: Name, stamp: int, k: Ino)
    requires IsFile(d, Under(StageDir, n)) && Vacant(d, Under(OutputDir, n))
    ensures var d', ino := Linked(d, n, stamp), Lookup(d, Under(StageDir, n)).value;
            && SameAt(d, d', LockFile) && (k in d.nodes && k != ino ==> k in d'.nodes && d'.nodes[k] == d.nodes[k])
            && (forall dir, id :: IsDir(d, dir, id) ==> IsDir(d', dir, id))
            && ino in ChildInos(d, StageDir) && ChildInos(d', StageDir) == ChildInos(d, StageDir)
            && ChildInos(d', OutputDir) == ChildInos(d, OutputDir) + {ino}
  {
    KidsBind(d, Linked(d, n, stamp), OutputDir, n, Lookup(d, Under(StageDir, n)).value);
  }

  lemma LinkGoes(d0: Disk, b: Builder, d: Disk, c: Choice)
    requires Consistent(d) && HasFiveFiles(b.files) && HolderInv(d0, b, d) && b.pc.Linking? && !b.failed && b.pc.i < 5
    requires DoLinking(b, d, c, b.pc.i).b.pc == Unstaging(b.pc.i)
    ensures StepKeeps(d0, b, d, DoLinking(b, d, c, b.pc.i))
  {
    hide HolderInv, StepKeeps, Tenure, Consistent, Frame, Holding, OutputMatches, Prefix, Remaining, OutputNames,
         FileName, Linked, ChildInos, Identity;
    var i := b.pc.i;
    var next, n := DoLinking(b, d, c, i), FileName(i);
    ForwardHolder(d0, b, d);
    HolderParts(d0, b, d);
    TenureSays(d0, b, d);
    OwnExists(d0, b, d);
    LockUnshared(d0, b, d);
    LinkedEffects(d, n, c.stamp, b.lockIno);
    FrameLink(b, d, next.b, n, c.stamp);
    LinkHands(b.session, b.files, d, i, c.stamp);
    TenureMoves(d0, b.lockIno, b.lock, b.session, d, b.session, next.d);
    HolderAgain(d0, b, d, next.b, next.d);
  }

  lemma TenureSays(d0: Disk, b: Builder, d: Disk)
    requires Tenure(d0, b.lockIno, b.lock, b.session, d)
    ensures Lookup(d, Top(LockFile)) == Some(b.lockIno) && b.lockIno in d.nodes
    ensures b.session.stage.Some? ==> StageDir !in d0.top && IsDir(d, StageDir, b.session.stage.value)
    ensures b.session.output.Some? ==> OutputDir !in d0.top && IsDir(d, OutputDir, b.session.output.value)
  {
  }

  lemma LinkHands(s: Session, files: map<Name, Bytes>, d: Disk, i: nat, stamp: int)
    requires Consistent(d) && HasFiveFiles(files) && i < 5
    requires Between(s, files, d, Remaining(i), Prefix(i), {})
    requires IsFile(d, Under(StageDir, FileName(i))) && Vacant(d, Under(OutputDir, FileName(i)))
    ensures Handing(s, files, Linked(d, FileName(i), stamp), i)
  {
    hide Consistent, Holding, Prefix, Remaining, OutputNames, FileName;
    var n := FileName(i);
    NextName(i);
    assert FileIs(d, StageDir, n, files[n], 1) by { HoldingHas(d, StageDir, Remaining(i), s.stageFiles, files, n); }
    LinkKeepsStage(s, files, d, Remaining(i), n, stamp);
    LinkKeepsOutput(s, files, d, Prefix(i), n, stamp);
  }

  lemma HoldingHas(d: Disk, dir: Name, names: set<Name>, owned: map<Name, FileIdentity>, files: map<Name, Bytes>,
      n: Name)
    requires Holding(d, dir, names, owned, files, {}) && n in names && n in files
    ensures FileIs(d, dir, n, files[n], 1)
  {
  }

  lemma LinkKeepsStage(s: Session, files: map<Name, Bytes>, d: Disk, names: set<Name>, n: Name, stamp: int)
    requires Consistent(d) && Holding(d, StageDir, names, s.stageFiles, files, {})
    requires IsFile(d, Under(StageDir, n)) && Vacant(d, Under(OutputDir, n))
    requires d.nodes[Lookup(d, Under(StageDir, n)).value].links == 1
    ensures Holding(Linked(d, n, stamp), StageDir, names, s.stageFiles, files, {n})
  {
    hide Consistent;
    Unshared(d, Under(StageDir, n), StageDir);
    HoldingCarries(d, Linked(d, n, stamp), StageDir, names, s.stageFiles, files, {}, names, s.stageFiles, {n},
        Lookup(d, Under(StageDir, n)).value);
  }

  lemma LinkKeepsOutput(s: Session, files: map<Name, Bytes>, d: Disk, names: set<Name>, n: Name, stamp: int)
    requires Consistent(d) && Holding(d, OutputDir, names, s.outputFiles, files, {})
    requires IsFile(d, Under(StageDir, n)) && Vacant(d, Under(OutputDir, n))
    requires d.nodes[Lookup(d, Under(StageDir, n)).value].links == 1
    ensures Holding(Linked(d, n, stamp), OutputDir, names + {n}, s.outputFiles, files, {n})
  {
    hide Consistent;
    Unshared(d, Under(StageDir, n), OutputDir);
    assert forall m :: m in d.top[OutputDir].children ==> d.top[OutputDir].children[m] in ChildInos(d, OutputDir);
    HoldingCarries(d, Linked(d, n, stamp), OutputDir, names, s.outputFiles, files, {}, names + {n}, s.outputFiles,
        {n}, Lookup(d, Under(StageDir, n)).value);
  }

  lemma StepUnstaging(d0: Disk, b: Builder, d: Disk, c: Choice)
    requires Consistent(d) && HasFiveFiles(b.files) && HolderInv(d0, b, d) && b.pc.Unstaging? && !b.failed
    ensures StepKeeps(d0, b, d, DoUnstaging(b, d, c, b.pc.i))
  {
    hide Consistent, Frame, Tenure, Alive, Handing, OutputMatches, HasFiveFiles, Prefix, Remaining, OutputNames,
         FileName;
    OwnExists(d0, b, d);
    StepFail(d0, b, d);
    FrameStay(b, d, DoUnstaging(b, d, c, b.pc.i).b);
  }

  lemma StepUnstageUnlink(d0: Disk, b: Builder, d: Disk, c: Choice)
    requires Consistent(d) && HasFiveFiles(b.files) && HolderInv(d0, b, d) && b.pc.UnstageUnlink? && !b.failed
    ensures StepKeeps(d0, b, d, DoUnstageUnlink(b, d, c, b.pc.i))
  {
    hide Consistent, HolderInv, StepKeeps, OwnedFile, Lookup, RemoveLink, FileName;
    assert b.lock.Some? && !b.present && InRange(b.pc) by { ForwardHolder(d0, b, d); }
    if DoUnstageUnlink(b, d, c, b.pc.i).b.pc == ReadBack(b.pc.i) {
      UnstageGoes(d0, b, d, c);
    } else {
      StepFail(d0, b, d);
    }
  }

  lemma UnstageGoes(d0: Disk, b: Builder, d: Disk, c: Choice)
    requires Consistent(d) && HasFiveFiles(b.files) && HolderInv(d0, b, d) && b.pc.UnstageUnlink? && !b.failed
    requires b.pc.i < 5
    requires DoUnstageUnlink(b, d, c, b.pc.i).b.pc == ReadBack(b.pc.i)
    ensures StepKeeps(d0, b, d, DoUnstageUnlink(b, d, c, b.pc.i))
  {
    hide HolderInv, StepKeeps, Tenure, Consistent, Frame, Holding, OutputMatches, Prefix, Remaining, OutputNames,
         FileName;
    var i := b.pc.i;
    ForwardHolder(d0, b, d);
    HolderParts(d0, b, d);
    TenureSays(d0, b, d);
    OwnExists(d0, b, d);
    var next := DoUnstageUnlink(b, d, c, i);
    var p := Under(StageDir, FileName(i));
    assert Lookup(d, p).value in ChildInos(d, StageDir);
    LockUnshared(d0, b, d);
    FrameUnlink(b, d, p, c, ReadBack(i));
    UnlinkHands(b.session, b.files, d, i, c.stamp);
    TenureMoves(d0, b.lockIno, b.lock, b.session, d, b.session, next.d);
    HolderAgain(d0, b, d, next.b, next.d);
  }

  lemma UnlinkHands(s: Session, files: map<Name, Bytes>, d: Disk, i: nat, stamp: int)
    requires HasFiveFiles(files) && i < 5 && Handing(s, files, d, i)
    ensures var d' := RemoveLink(d, Under(StageDir, FileName(i)), stamp);
            && Handed(s, files, d', i)
            && ChildInos(d', StageDir) + ChildInos(d', OutputDir) == ChildInos(d, StageDir) + ChildInos(d, OutputDir)
            && Lookup(d, Under(StageDir, FileName(i))).value in d'.nodes
  {
    hide Consistent, Prefix, Remaining, OutputNames, FileName;
    var n := FileName(i);
    var d' := RemoveLink(d, Under(StageDir, n), stamp);
    var ino := Lookup(d, Under(StageDir, n)).value;
    NextName(i);
    forall m | m in Remaining(i) - {n} ensures d.top[StageDir].children[m] != ino {
      assert FileIs(d, StageDir, m, files[m], 1);
    }
    forall m | m in Prefix(i + 1) - {n} ensures d.top[OutputDir].children[m] != ino {
      assert FileIs(d, OutputDir, m, files[m], 1);
    }
    HoldingCarries(d, d', StageDir, Remaining(i), s.stageFiles, files, {n}, Remaining(i + 1), s.stageFiles, {n}, ino);
    HoldingCarries(d, d', OutputDir, Prefix(i + 1), s.outputFiles, files, {n}, Prefix(i + 1), s.outputFiles, {n}, ino);
    KidsUnbind(d, d', StageDir, n);
    assert d.top[OutputDir].children[n] == ino;
  }

  lemma StepReadBack(d0: Disk, b: Builder, d: Disk, c: Choice)
    requires Consistent(d) && HasFiveFiles(b.files) && HolderInv(d0, b, d) && b.pc.ReadBack? && !b.failed
    ensures StepKeeps(d0, b, d, DoReadBack(b, d, c, b.pc.i))
  {
    hide Consistent, HolderInv, StepKeeps, Readable, BytesAt, Lookup, Identity, FileName;
    assert b.lock.Some? && !b.present && InRange(b.pc) by { ForwardHolder(d0, b, d); }
    if DoReadBack(b, d, c, b.pc.i).b.pc != Clear(OutputDir) {
      ReadBackGoes(d0, b, d, c);
    } else {
      StepFail(d0, b, d);
    }
  }

  lemma ReadBackGoes(d0: Disk, b: Builder, d: Disk, c: Choice)
    requires Consistent(d) && HasFiveFiles(b.files) && HolderInv(d0, b, d) && b.pc.ReadBack? && !b.failed && b.pc.i < 5
    requires DoReadBack(b, d, c, b.pc.i).b.pc != Clear(OutputDir)
    ensures StepKeeps(d0, b, d, DoReadBack(b, d, c, b.pc.i))
  {
    hide Consistent, Frame, Holding, Alive, Tenure, OutputMatches, Prefix, Remaining, OutputNames, FileName, Identity;
    var i := b.pc.i;
    OwnExists(d0, b, d);
    NextName(i);
    var next := DoReadBack(b, d, c, i);
    FrameStay(b, d, next.b);
    ReadBackRecords(b.session, b.files, d, i);
    SessionAlike(d0, b.lockIno, b.lock, b.session, d, next.b.session);
  }

  lemma SessionAlike(d0: Disk, lockIno: Ino, lock: Option<FileIdentity>, s: Session, d: Disk, s': Session)
    requires Tenure(d0, lockIno, lock, s, d) && s'.stage == s.stage && s'.output == s.output
    ensures Tenure(d0, lockIno, lock, s', d) && Alive(lockIno, s', d) == Alive(lockIno, s, d)
  {
  }

  lemma ReadBackRecords(s: Session, files: map<Name, Bytes>, d: Disk, i: nat)
    requires HasFiveFiles(files) && i < 5 && Handed(s, files, d, i)
    ensures var n := FileName(i);
            Between(s.(outputFiles := s.outputFiles[n := Identity(d, Lookup(d, Under(OutputDir, n)).value)],
                stageFiles := s.stageFiles - {n}),
                    files, d, Remaining(i + 1), Prefix(i + 1), {})
  {
    hide Consistent, Prefix, Remaining, OutputNames, FileName;
    NextName(i);
  }

  lemma StepRemovingStage(d0: Disk, b: Builder, d: Disk, c: Choice)
    requires Consistent(d) && HasFiveFiles(b.files) && HolderInv(d0, b, d) && b.pc.RemovingStage? && !b.failed
    ensures StepKeeps(d0, b, d, DoRemovingStage(b, d, c))
  {
    hide Consistent, Frame, Holding, OutputMatches, Prefix, Remaining, OutputNames, FileName, HasFiveFiles;
    OwnExists(d0, b, d);
    StepFail(d0, b, d);
    var next := DoRemovingStage(b, d, c);
    if next.b.pc.Verifying? {
      FrameRmdir(b, d, next.b, StageDir);
      CompleteAfterRmdir(b.session, b.files, d);
      TenureMoves(d0, b.lockIno, b.lock, b.session, d, next.b.session, next.d);
    }
  }

  lemma CompleteAfterRmdir(s: Session, files: map<Name, Bytes>, d: Disk)
    requires Between(s, files, d, {}, OutputNames(), {}) && d.top[StageDir].children == map[]
    ensures Complete(s.(stage := None), files, RemoveDir(d, StageDir))
  {
    hide OutputNames;
    var d' := RemoveDir(d, StageDir);
    forall n | n in OutputNames()
      ensures n in s.outputFiles && n in files && OwnedFile(d', Under(OutputDir, n), s.outputFiles[n], 1)
      ensures FileIs(d', OutputDir, n, files[n], 1)
    {
      assert OwnedFile(d, Under(OutputDir, n), s.outputFiles[n], 1);
      assert Lookup(d', Under(OutputDir, n)) == Lookup(d, Under(OutputDir, n));
    }
  }

  // ---- cleaning up ----

  lemma StepClear(d0: Disk, b: Builder, d: Disk, c: Choice)
    requires Consistent(d) && HasFiveFiles(b.files) && HolderInv(d0, b, d) && b.pc.Clear? && b.failed
    ensures StepKeeps(d0, b, d, DoClear(b, d, c, b.pc.dir))
  {
    hide Consistent, Frame, Tenure, Alive, Forward, OutputMatches, HasFiveFiles;
    OwnExists(d0, b, d);
    FrameStay(b, d, DoClear(b, d, c, b.pc.dir).b);
  }

  lemma RmdirKeeps(d0: Disk, lockIno: Ino, lock: Option<FileIdentity>, s: Session, d: Disk, dir: Name)
    requires Tenure(d0, lockIno, lock, s, d) && (dir == StageDir || dir == OutputDir) && DirOf(s, dir).Some?
    requires d.top[dir].children == map[]
    ensures Tenure(d0, lockIno, lock, WithoutDir(s, dir), RemoveDir(d, dir))
    ensures Alive(lockIno, WithoutDir(s, dir), RemoveDir(d, dir)) == Alive(lockIno, s, d)
  {
  }

  lemma StepPick(d0: Disk, b: Builder, d: Disk, c: Choice)
    requires Consistent(d) && HasFiveFiles(b.files) && HolderInv(d0, b, d) && b.pc.Pick? && b.failed
    ensures StepKeeps(d0, b, d, DoPick(b, d, c, b.pc.dir))
  {
    hide Consistent, Frame, Tenure, Alive, Forward, OutputMatches, HasFiveFiles, ChildInos, Lookup, Identity,
         StepKeeps;
    var dir := b.pc.dir;
    if c.ok && dir in d.top && d.top[dir].DirAt? && d.top[dir].children == map[] {
      PickEmpty(d0, b, d, c);
    } else {
      PickStays(d0, b, d, c);
    }
  }

  lemma PickStays(d0: Disk, b: Builder, d: Disk, c: Choice)
    requires Consistent(d) && HasFiveFiles(b.files) && HolderInv(d0, b, d) && b.pc.Pick? && b.failed
    requires !(c.ok && b.pc.dir in d.top && d.top[b.pc.dir].DirAt? && d.top[b.pc.dir].children == map[])
    ensures StepKeeps(d0, b, d, DoPick(b, d, c, b.pc.dir))
  {
    hide Consistent, Frame, Tenure, Alive, Forward, OutputMatches, HasFiveFiles, ChildInos, Lookup, Identity;
    OwnExists(d0, b, d);
    FrameStay(b, d, DoPick(b, d, c, b.pc.dir).b);
  }

  lemma PickEmpty(d0: Disk, b: Builder, d: Disk, c: Choice)
    requires Consistent(d) && HasFiveFiles(b.files) && HolderInv(d0, b, d) && b.pc.Pick? && b.failed && c.ok
    requires b.pc.dir in d.top && d.top[b.pc.dir].DirAt? && d.top[b.pc.dir].children == map[]
    ensures StepKeeps(d0, b, d, DoPick(b, d, c, b.pc.dir))
  {
    hide Consistent, Frame, Tenure, Alive, Forward, OutputMatches, HasFiveFiles, ChildInos, Lookup, Identity,
         OwnedFile;
    var dir := b.pc.dir;
    OwnExists(d0, b, d);
    FrameRmdir(b, d, DoPick(b, d, c, dir).b, dir);
    RmdirKeeps(d0, b.lockIno, b.lock, b.session, d, dir);
  }

  lemma DropKeeps(d0: Disk, b: Builder, d: Disk, dir: Name, n: Name, stamp: int)
    requires Consistent(d) && HasFiveFiles(b.files) && HolderInv(d0, b, d)
    requires (dir == StageDir || dir == OutputDir) && DirOf(b.session, dir).Some?
    requires IsFile(d, Under(dir, n)) && d.nodes[Lookup(d, Under(dir, n)).value].links == 1
    ensures var d' := RemoveLink(d, Under(dir, n), stamp);
            && Tenure(d0, b.lockIno, b.lock, b.session, d')
            && Alive(b.lockIno, b.session, d') == Alive(b.lockIno, b.session, d) - {Lookup(d, Under(dir, n)).value}
            && Lookup(d, Under(dir, n)).value in Alive(b.lockIno, b.session, d)
  {
    hide Consistent, Forward, Cleaning;
    var p := Under(dir, n);
    var ino := Lookup(d, p).value;
    assert ino in ChildInos(d, dir);
    LockUnshared(d0, b, d);
    Unshared(d, p, StageDir);
    Unshared(d, p, OutputDir);
    var d' := RemoveLink(d, p, stamp);
    KidsUnbind(d, d', dir, n);
    TenureMoves(d0, b.lockIno, b.lock, b.session, d, b.session, d');
  }

  lemma StepDrop(d0: Disk, b: Builder, d: Disk, c: Choice)
    requires Consistent(d) && HasFiveFiles(b.files) && HolderInv(d0, b, d) && b.pc.Drop? && b.failed
    ensures StepKeeps(d0, b, d, DoDrop(b, d, c, b.pc.dir, b.pc.name))
  {
    hide Consistent, Frame, Tenure, Alive, Forward, OutputMatches, HasFiveFiles, ChildInos;
    var dir, n := b.pc.dir, b.pc.name;
    OwnExists(d0, b, d);
    var next := DoDrop(b, d, c, dir, n);
    if c.ok {
      DropKeeps(d0, b, d, dir, n, c.stamp);
      FrameUnlink(b, d, Under(dir, n), c, Pick(dir));
    } else {
      FrameStay(b, d, next.b);
    }
  }

  // ---- releasing ----

  lemma StepReleaseCheck(d0: Disk, b: Builder, d: Disk, c: Choice)
    requires Consistent(d) && HasFiveFiles(b.files) && HolderInv(d0, b, d) && b.pc.ReleaseCheck?
    ensures var next := DoReleaseCheck(b, d, c);
            if HoldsLock(next.b) then StepKeeps(d0, b, d, next)
            else Frame(b, d, next.b, next.d) && OutsiderInv(next.b, next.d)
  {
    hide Consistent, Frame, OutputMatches, HasFiveFiles, OutsiderInv, HolderInv, StepKeeps;
    ReleaseFails(d0, b, d);
    ReleaseProceeds(d0, b, d);
  }

  lemma ReleaseProceeds(d0: Disk, b: Builder, d: Disk)
    requires Consistent(d) && HasFiveFiles(b.files) && HolderInv(d0, b, d) && b.pc.ReleaseCheck?
    ensures StepKeeps(d0, b, d, Goto(b, d, ReleaseUnlink))
  {
    hide Consistent, Frame, Alive, Complete, OutputMatches, HasFiveFiles, Tenure;
    OwnExists(d0, b, d);
    FrameStay(b, d, Goto(b, d, ReleaseUnlink).b);
  }

  lemma StepReleaseUnlink(d0: Disk, b: Builder, d: Disk, c: Choice)
    requires Consistent(d) && HasFiveFiles(b.files) && HolderInv(d0, b, d) && b.pc.ReleaseUnlink?
    ensures var next := DoReleaseUnlink(b, d, c);
            && Frame(b, d, next.b, next.d) && next.b.pc.Done? && OutsiderInv(next.b, next.d)
  {
    hide Consistent, Frame, OutputMatches, HasFiveFiles, OutsiderInv, HolderInv;
    UnlockLeaves(d0, b, d, c.stamp);
    if c.ok {
      ReleaseGoes(d0, b, d, c);
    } else {
      ReleaseFails(d0, b, d);
    }
  }

  lemma ReleaseGoes(d0: Disk, b: Builder, d: Disk, c: Choice)
    requires Consistent(d) && HasFiveFiles(b.files) && HolderInv(d0, b, d) && b.pc.ReleaseUnlink?
    requires IsFile(d, Top(LockFile))
    ensures var next := Unlink(b, d, Top(LockFile), c, Done(Verdict(b, c)));
            Frame(b, d, next.b, next.d) && OutsiderInv(next.b, next.d)
  {
    hide Consistent, Frame, OutputMatches, HasFiveFiles, ChildInos, Holding, Tenure;
    assert Tenure(d0, b.lockIno, b.lock, b.session, d);
    OwnExists(d0, b, d);
    UnlockLeaves(d0, b, d, c.stamp);
    FrameUnlink(b, d, Top(LockFile), c, Done(Verdict(b, c)));
  }

  /** Reporting leftovers. */
  lemma ReleaseFails(d0: Disk, b: Builder, d: Disk)
    requires Consistent(d) && HasFiveFiles(b.files) && HolderInv(d0, b, d)
    ensures var next := Goto(b, d, Done(LeftoversRemain));
            Frame(b, d, next.b, next.d) && OutsiderInv(next.b, next.d)
  {
    hide Consistent, Frame, OutputMatches, HasFiveFiles, Forward, Cleaning, Alive;
    OwnExists(d0, b, d);
    FrameStay(b, d, Goto(b, d, Done(LeftoversRemain)).b);
  }

  /** Removing the lock leaves the directories and the rest of the builder's files. */
  lemma UnlockLeaves(d0: Disk, b: Builder, d: Disk, stamp: int)
    requires Consistent(d) && HasFiveFiles(b.files) && HolderInv(d0, b, d)
    ensures Lookup(d, Top(LockFile)) == Some(b.lockIno) && IsFile(d, Top(LockFile))
    ensures var d' := RemoveLink(d, Top(LockFile), stamp);
            && Placed(b.session, d')
            && b.lockIno !in d'.nodes
            && ChildInos(d', OutputDir) == ChildInos(d, OutputDir)
            && b.own - {b.lockIno} ==
               (if b.session.stage.Some? then ChildInos(d,
                   StageDir) else {}) + (if b.session.output.Some? then ChildInos(d, OutputDir) else {})
            && (OutputMatches(d, b.files) ==> OutputMatches(d', b.files))
  {
    hide Consistent, Forward, Cleaning;
    LockUnshared(d0, b, d);
    var d' := RemoveLink(d, Top(LockFile), stamp);
    assert ChildInos(d', OutputDir) == ChildInos(d, OutputDir);
    if OutputMatches(d, b.files) {
      OutputKept(d, d', b.lockIno);
    }
  }
}
