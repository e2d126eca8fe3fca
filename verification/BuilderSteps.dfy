/** Several builders on one `.local`, one system call at a time
    (tools/local-stack/build_submission_bundle.py).

    `Next` is what one builder does with its next system call. The environment's
    part is a Choice: whether the call fails, the inode a create is given, how many
    bytes a write moves, which directory entry a cleanup meets next. Checking an
    identity and unlinking the name are separate steps. */
module BuilderSteps {
  import opened Basics
  import opened LocalDisk
  import opened BundleFiles
  import opened BundleState

  datatype Outcome =
    | Refused         // stopped without ever owning the lock
    | LockAbandoned   // the lock file was created but could not be completed
    | Published
    | AlreadyThere
    | Failed          // failed, and cleaned up completely
    | LeftoversRemain // reported cleanup_failed

  datatype Pc =
    | Start
    | Opening
    | FillingLock
    | CheckStage
    | CheckOutput
    | ReadingOutput
    | MakingStage
    | Staging(i: nat)
    | Filling(i: nat)
    | MakingOutput
    | SourceGate
    | Linking(i: nat)
    | Unstaging(i: nat)
    | UnstageUnlink(i: nat)
    | ReadBack(i: nat)
    | RemovingStage
    | Verifying
    | Clear(dir: Name)
    | Pick(dir: Name)
    | Drop(dir: Name, name: Name)
    | ReleaseCheck
    | ReleaseUnlink
    | Done(outcome: Outcome)

  /** One builder: the locals of `_publish_new_output`, and `own`, the inodes it has
      created and not yet deleted. */
  datatype Builder = Builder(
    pc: Pc, files: map<Name, Bytes>,
    lockIno: Ino, lock: Option<FileIdentity>, session: Session,
    failed: bool, clean: bool, present: bool, sourceChecked: bool, own: set<Ino>)

  datatype Choice = Choice(ok: bool, ino: Ino, id: DirId, stamp: int, amount: nat, name: Name)

  datatype Config = Config(b: Builder, d: Disk)

  function Idle(files: map<Name, Bytes>): Builder {
    Builder(Start, files, 0, None, NO_SESSION, false, true, false, false, {})
  }

  predicate HoldsLock(b: Builder) {
    !b.pc.Start? && !b.pc.Opening? && !b.pc.Done?
  }

  // ---- moves that do not touch the disk ----

  function Goto(b: Builder, d: Disk, pc: Pc): Config {
    Config(b.(pc := pc), d)
  }

  /** Any failure under the lock goes to the cleanup. */
  function Fail(b: Builder, d: Disk): Config {
    Config(b.(pc := Clear(OutputDir), failed := true), d)
  }

  function AfterClear(b: Builder, d: Disk, dir: Name): Config {
    Goto(b, d, if dir == OutputDir then Clear(StageDir) else ReleaseCheck)
  }

  function Unclean(b: Builder, d: Disk, dir: Name): Config {
    AfterClear(b.(clean := false), d, dir)
  }

  // ---- moves that do ----

  function Create(b: Builder, d: Disk, p: Path, c: Choice, pc: Pc): Config
    requires Vacant(d, p)
  {
    Config(b.(pc := pc, own := b.own + {c.ino}), CreateFile(d, p, c.ino, c.stamp))
  }

  /** A short write: at least one byte, at most what is left of the payload. */
  function Fill(d: Disk, ino: Ino, payload: Bytes, c: Choice): Disk
    requires ino in d.nodes && |d.nodes[ino].bytes| < |payload|
  {
    var at := |d.nodes[ino].bytes|;
    var upTo := if 1 <= c.amount && at + c.amount <= |payload| then at + c.amount else |payload|;
    Append(d, ino, payload[at..upTo], c.stamp)
  }

  function Unlink(b: Builder, d: Disk, p: Path, c: Choice, pc: Pc): Config
    requires IsFile(d, p)
  {
    var ino := Lookup(d, p).value;
    var d' := RemoveLink(d, p, c.stamp);
    Config(b.(pc := pc, own := if ino in d'.nodes then b.own else b.own - {ino}), d')
  }

  function DirOf(s: Session, dir: Name): Option<DirId> {
    if dir == OutputDir then s.output else s.stage
  }

  function FilesOf(s: Session, dir: Name): map<Name, FileIdentity> {
    if dir == OutputDir then s.outputFiles else s.stageFiles
  }

  function WithoutDir(s: Session, dir: Name): Session {
    if dir == OutputDir then s.(output := None) else s.(stage := None)
  }

  // ---- what each program counter does ----

  function DoStart(b: Builder, d: Disk): Config {
    if LockFile in d.top then Goto(b, d, Done(Refused)) else Goto(b, d, Opening)
  }

  function DoOpening(b: Builder, d: Disk, c: Choice): Config {
    if !c.ok || LockFile in d.top || c.ino in d.nodes then Goto(b, d, Done(Refused))
    else Create(b.(lockIno := c.ino), d, Top(LockFile), c, FillingLock)
  }

  function DoFillingLock(b: Builder, d: Disk, c: Choice): Config {
    if !c.ok || b.lockIno !in d.nodes then Goto(b, d, Done(LockAbandoned))
    else if |d.nodes[b.lockIno].bytes| < |LOCK_BYTES| then Config(b, Fill(d, b.lockIno, LOCK_BYTES, c))
    else Goto(b.(lock := Some(Identity(d, b.lockIno))), d, CheckStage)
  }

  function DoCheckStage(b: Builder, d: Disk): Config {
    if StageDir in d.top then Fail(b, d) else Goto(b, d, CheckOutput)
  }

  function DoCheckOutput(b: Builder, d: Disk): Config {
    Goto(b, d, if OutputDir in d.top then ReadingOutput else MakingStage)
  }

  function DoReadingOutput(b: Builder, d: Disk, c: Choice): Config {
    if c.ok && OutputMatches(d, b.files) then Goto(b.(present := true), d, ReleaseCheck) else Fail(b, d)
  }

  function DoMakingStage(b: Builder, d: Disk, c: Choice): Config {
    if !c.ok || StageDir in d.top then Fail(b, d)
    else Config(b.(pc := Staging(0), session := b.session.(stage := Some(c.id))), MakeDir(d, StageDir, c.id))
  }

  function DoStaging(b: Builder, d: Disk, c: Choice, i: nat): Config
    requires i < 5
  {
    if !c.ok || !Vacant(d, Under(StageDir, FileName(i))) || c.ino in d.nodes then Fail(b, d)
    else Create(b, d, Under(StageDir, FileName(i)), c, Filling(i))
  }

  function DoFilling(b: Builder, d: Disk, c: Choice, i: nat): Config
    requires i < 5 && HasFiveFiles(b.files)
  {
    var n := FileName(i);
    if !c.ok || !IsFile(d, Under(StageDir, n)) then Fail(b, d)
    else
      var ino := Lookup(d, Under(StageDir, n)).value;
      if |d.nodes[ino].bytes| < |b.files[n]| then Config(b, Fill(d, ino, b.files[n], c))
      else
        var s := b.session.(stageFiles := b.session.stageFiles[n := Identity(d, ino)]);
        Goto(b.(session := s), d, if i == 4 then MakingOutput else Staging(i + 1))
  }

  function DoMakingOutput(b: Builder, d: Disk, c: Choice): Config {
    if !c.ok || OutputDir in d.top then Fail(b, d)
    else Config(b.(pc := Linking(0), session := b.session.(output := Some(c.id))), MakeDir(d, OutputDir, c.id))
  }

  function DoSourceGate(b: Builder, d: Disk, c: Choice): Config {
    if c.ok then Goto(b.(sourceChecked := true), d, Linking(4)) else Fail(b, d)
  }

  function DoLinking(b: Builder, d: Disk, c: Choice, i: nat): Config
    requires i < 5
  {
    var n := FileName(i);
    if && c.ok && n in b.session.stageFiles && OwnedFile(d, Under(StageDir, n), b.session.stageFiles[n], 1)
       && Vacant(d, Under(OutputDir, n))
    then Config(b.(pc := Unstaging(i)), Linked(d, n, c.stamp))
    else Fail(b, d)
  }

  function DoUnstaging(b: Builder, d: Disk, c: Choice, i: nat): Config
    requires i < 5
  {
    var source, target := Under(StageDir, FileName(i)), Under(OutputDir, FileName(i));
    if && c.ok && IsFile(d, source) && Lookup(d, target) == Lookup(d, source)
       && d.nodes[Lookup(d, source).value].links == 2
    then Goto(b, d, UnstageUnlink(i)) else Fail(b, d)
  }

  function DoUnstageUnlink(b: Builder, d: Disk, c: Choice, i: nat): Config
    requires i < 5
  {
    if !c.ok || !IsFile(d, Under(StageDir, FileName(i))) then Fail(b, d)
    else Unlink(b, d, Under(StageDir, FileName(i)), c, ReadBack(i))
  }

  function DoReadBack(b: Builder, d: Disk, c: Choice, i: nat): Config
    requires i < 5 && HasFiveFiles(b.files)
  {
    var n := FileName(i);
    var p := Under(OutputDir, n);
    if c.ok && Readable(d, p, OUTPUT_FILE_MAX_BYTES) && BytesAt(d, p) == b.files[n] then
      var s := b.session.(outputFiles := b.session.outputFiles[n := Identity(d, Lookup(d, p).value)],
                          stageFiles := b.session.stageFiles - {n});
      Goto(b.(session := s), d, if i == 4 then RemovingStage else if i == 3 then SourceGate else Linking(i + 1))
    else Fail(b, d)
  }

  function DoRemovingStage(b: Builder, d: Disk, c: Choice): Config {
    if c.ok && StageDir in d.top && d.top[StageDir].DirAt? && d.top[StageDir].children == map[]
    then Config(b.(pc := Verifying, session := b.session.(stage := None)), RemoveDir(d, StageDir))
    else Fail(b, d)
  }

  function DoVerifying(b: Builder, d: Disk, c: Choice): Config {
    if c.ok && OutputMatches(d, b.files) then Goto(b, d, ReleaseCheck) else Fail(b, d)
  }

  function DoClear(b: Builder, d: Disk, c: Choice, dir: Name): Config {
    var id := DirOf(b.session, dir);
    if id.None? then AfterClear(b, d, dir)
    else if c.ok && IsDir(d, dir, id.value) && d.top[dir].children.Keys <= FilesOf(b.session, dir).Keys
    then Goto(b, d, Pick(dir))
    else Unclean(b, d, dir)
  }

  function DoPick(b: Builder, d: Disk, c: Choice, dir: Name): Config {
    var owned := FilesOf(b.session, dir);
    if !c.ok || dir !in d.top || !d.top[dir].DirAt? then Unclean(b, d, dir)
    else if d.top[dir].children == map[]
    then AfterClear(b.(session := WithoutDir(b.session, dir)), RemoveDir(d, dir), dir)
    else if && c.name in d.top[dir].children && c.name in owned
            && OwnedFile(d, Under(dir, c.name), owned[c.name], 1)
    then Goto(b, d, Drop(dir, c.name))
    else Unclean(b, d, dir)
  }

  function DoDrop(b: Builder, d: Disk, c: Choice, dir: Name, n: Name): Config {
    if c.ok && IsFile(d, Under(dir, n)) then Unlink(b, d, Under(dir, n), c, Pick(dir))
    else Unclean(b, d, dir)
  }

  function DoReleaseCheck(b: Builder, d: Disk, c: Choice): Config {
    if c.ok && b.lock.Some? && OwnedFile(d, Top(LockFile), b.lock.value, 1)
    then Goto(b, d, ReleaseUnlink) else Goto(b, d, Done(LeftoversRemain))
  }

  function DoReleaseUnlink(b: Builder, d: Disk, c: Choice): Config {
    if c.ok && IsFile(d, Top(LockFile)) then Unlink(b, d, Top(LockFile), c, Done(Verdict(b, c)))
    else Goto(b, d, Done(LeftoversRemain))
  }

  /** The last fsync of `.local` may still fail (`amount == 0`). */
  function Verdict(b: Builder, c: Choice): Outcome {
    if !b.clean || c.amount == 0 then LeftoversRemain
    else if b.failed then Failed
    else if b.present then AlreadyThere
    else Published
  }

  /** Program counters index the five files and the two directories. */
  predicate InRange(pc: Pc) {
    (pc.Clear? || pc.Pick? || pc.Drop? ==> pc.dir == StageDir || pc.dir == OutputDir) &&
    (pc.Staging? ==> pc.i < 5) && (pc.Filling? ==> pc.i < 5) && (pc.Linking? ==> pc.i < 5) &&
    (pc.Unstaging? ==> pc.i < 5) && (pc.UnstageUnlink? ==> pc.i < 5) && (pc.ReadBack? ==> pc.i < 5)
  }

  function Next(b: Builder, d: Disk, c: Choice): Config
    requires HasFiveFiles(b.files) && InRange(b.pc)
  {
    match b.pc
    case Start => DoStart(b, d)
    case Opening => DoOpening(b, d, c)
    case FillingLock => DoFillingLock(b, d, c)
    case CheckStage => DoCheckStage(b, d)
    case CheckOutput => DoCheckOutput(b, d)
    case ReadingOutput => DoReadingOutput(b, d, c)
    case MakingStage => DoMakingStage(b, d, c)
    case Staging(i) => DoStaging(b, d, c, i)
    case Filling(i) => DoFilling(b, d, c, i)
    case MakingOutput => DoMakingOutput(b, d, c)
    case SourceGate => DoSourceGate(b, d, c)
    case Linking(i) => DoLinking(b, d, c, i)
    case Unstaging(i) => DoUnstaging(b, d, c, i)
    case UnstageUnlink(i) => DoUnstageUnlink(b, d, c, i)
    case ReadBack(i) => DoReadBack(b, d, c, i)
    case RemovingStage => DoRemovingStage(b, d, c)
    case Verifying => DoVerifying(b, d, c)
    case Clear(dir) => DoClear(b, d, c, dir)
    case Pick(dir) => DoPick(b, d, c, dir)
    case Drop(dir, n) => DoDrop(b, d, c, dir, n)
    case ReleaseCheck => DoReleaseCheck(b, d, c)
    case ReleaseUnlink => DoReleaseUnlink(b, d, c)
    case Done(_) => Config(b, d)
  }
}
