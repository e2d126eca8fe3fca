/** Whole runs of any number of builders on one `.local`, under every schedule
    (tools/local-stack/build_submission_bundle.py). */
module BuilderRuns {
  import opened Basics
  import opened LocalDisk
  import opened BundleFiles
  import opened BundleState
  import opened BuilderSteps
  import opened ConcurrentBuilders

  datatype System = System(disk: Disk, builders: seq<Builder>)
  datatype Turn = Turn(who: nat, choice: Choice)

  predicate Ready(b: Builder) {
    HasFiveFiles(b.files) && InRange(b.pc)
  }

  /** A directory is recorded exactly while it exists by this builder's doing. */
  predicate Follows(n: Name, s: Session, d: Disk, s': Session, d': Disk) {
    && (DirOf(s', n).Some? && DirOf(s, n).None? ==> n !in d.top)
    && (n in d'.top && DirOf(s', n).None? ==> n in d.top && DirOf(s, n).None?)
  }

  predicate Regular(b: Builder, d: Disk, next: Config) {
    && next.b.files == b.files && InRange(next.b.pc)
    && Follows(StageDir, b.session, d, next.b.session, next.d)
    && Follows(OutputDir, b.session, d, next.b.session, next.d)
  }

  // Which names `.local` holds after each edit.

  lemma CreateNames(d: Disk, p: Path, ino: Ino, stamp: int)
    requires Vacant(d, p)
    ensures CreateFile(d, p, ino, stamp).top.Keys == d.top.Keys + (if p.Top? then {p.name} else {})
  {
  }

  lemma RemoveNames(d: Disk, p: Path, stamp: int)
    requires IsFile(d, p)
    ensures RemoveLink(d, p, stamp).top.Keys == d.top.Keys - (if p.Top? then {p.name} else {})
  {
  }

  lemma LinkNames(d: Disk, n: Name, stamp: int)
    requires IsFile(d, Under(StageDir, n)) && Vacant(d, Under(OutputDir, n))
    ensures Linked(d, n, stamp).top.Keys == d.top.Keys
  {
  }

  lemma FillNames(d: Disk, ino: Ino, payload: Bytes, c: Choice)
    requires ino in d.nodes && |d.nodes[ino].bytes| < |payload|
    ensures Fill(d, ino, payload, c).top == d.top
  {
  }

  /** A step that records no directory and adds or removes at most the lock. */
  lemma KeepsDirectories(b: Builder, d: Disk, next: Config)
    requires next.b.files == b.files && InRange(next.b.pc)
    requires next.b.session.stage == b.session.stage && next.b.session.output == b.session.output
    requires next.d.top.Keys - {LockFile} == d.top.Keys - {LockFile}
    ensures Regular(b, d, next)
  {
    assert forall n :: n in d.top.Keys - {LockFile} <==> n in d.top && n != LockFile;
    assert forall n :: n in next.d.top.Keys - {LockFile} <==> n in next.d.top && n != LockFile;
  }

  lemma StaysPut(b: Builder, d: Disk, next: Config)
    requires next.b.files == b.files && InRange(next.b.pc) && next.d == d
    requires next.b.session.stage == b.session.stage && next.b.session.output == b.session.output
    ensures Regular(b, d, next)
  {
  }

  lemma OpeningMove(b: Builder, d: Disk, c: Choice)
    requires Ready(b)
    ensures Regular(b, d, DoOpening(b, d, c))
  {
    hide Regular, CreateFile, RemoveLink, Linked, Append, Fill, Lookup, Identity, FileName, HasFiveFiles,
         OutputMatches, OwnedFile, Readable, BytesAt;
    if Vacant(d, Top(LockFile)) {
      CreateNames(d, Top(LockFile), c.ino, c.stamp);
    }
    KeepsDirectories(b, d, DoOpening(b, d, c));
  }

  lemma FillingLockMove(b: Builder, d: Disk, c: Choice)
    requires Ready(b)
    ensures Regular(b, d, DoFillingLock(b, d, c))
  {
    hide Regular, CreateFile, RemoveLink, Linked, Append, Fill, Lookup, Identity, FileName, HasFiveFiles,
         OutputMatches, OwnedFile, Readable, BytesAt;
    if b.lockIno in d.nodes && |d.nodes[b.lockIno].bytes| < |LOCK_BYTES| {
      FillNames(d, b.lockIno, LOCK_BYTES, c);
    }
    KeepsDirectories(b, d, DoFillingLock(b, d, c));
  }

  lemma StagingMove(b: Builder, d: Disk, c: Choice, i: nat)
    requires Ready(b) && i < 5
    ensures Regular(b, d, DoStaging(b, d, c, i))
  {
    hide Regular, CreateFile, RemoveLink, Linked, Append, Fill, Lookup, Identity, FileName, HasFiveFiles,
         OutputMatches, OwnedFile, Readable, BytesAt;
    if Vacant(d, Under(StageDir, FileName(i))) {
      CreateNames(d, Under(StageDir, FileName(i)), c.ino, c.stamp);
    }
    KeepsDirectories(b, d, DoStaging(b, d, c, i));
  }

  lemma FillingMove(b: Builder, d: Disk, c: Choice, i: nat)
    requires Ready(b) && i < 5
    ensures Regular(b, d, DoFilling(b, d, c, i))
  {
    hide Regular, CreateFile, RemoveLink, Linked, Append, Fill, Lookup, Identity, FileName, OutputMatches, OwnedFile,
         Readable, BytesAt;
    var p := Under(StageDir, FileName(i));
    if IsFile(d, p) && |d.nodes[Lookup(d, p).value].bytes| < |b.files[FileName(i)]| {
      FillNames(d, Lookup(d, p).value, b.files[FileName(i)], c);
    }
    KeepsDirectories(b, d, DoFilling(b, d, c, i));
  }

  lemma LinkingMove(b: Builder, d: Disk, c: Choice, i: nat)
    requires Ready(b) && i < 5
    ensures Regular(b, d, DoLinking(b, d, c, i))
  {
    hide Regular, CreateFile, RemoveLink, Linked, Append, Fill, Lookup, Identity, FileName, HasFiveFiles,
         OutputMatches, Readable, BytesAt;
    if IsFile(d, Under(StageDir, FileName(i))) && Vacant(d, Under(OutputDir, FileName(i))) {
      LinkNames(d, FileName(i), c.stamp);
    }
    KeepsDirectories(b, d, DoLinking(b, d, c, i));
  }

  lemma UnstagingMove(b: Builder, d: Disk, c: Choice, i: nat)
    requires Ready(b) && i < 5
    ensures Regular(b, d, DoUnstaging(b, d, c, i))
  {
    hide Regular, CreateFile, RemoveLink, Linked, Append, Fill, Lookup, Identity, FileName, HasFiveFiles,
         OutputMatches, OwnedFile, Readable, BytesAt;
    StaysPut(b, d, DoUnstaging(b, d, c, i));
  }

  lemma UnstageUnlinkMove(b: Builder, d: Disk, c: Choice, i: nat)
    requires Ready(b) && i < 5
    ensures Regular(b, d, DoUnstageUnlink(b, d, c, i))
  {
    hide Regular, CreateFile, RemoveLink, Linked, Append, Fill, Lookup, Identity, FileName, HasFiveFiles,
         OutputMatches, OwnedFile, Readable, BytesAt;
    if IsFile(d, Under(StageDir, FileName(i))) {
      RemoveNames(d, Under(StageDir, FileName(i)), c.stamp);
    }
    KeepsDirectories(b, d, DoUnstageUnlink(b, d, c, i));
  }

  lemma ReadBackMove(b: Builder, d: Disk, c: Choice, i: nat)
    requires Ready(b) && i < 5
    ensures Regular(b, d, DoReadBack(b, d, c, i))
  {
    hide Regular, CreateFile, RemoveLink, Linked, Append, Fill, Lookup, Identity, FileName, HasFiveFiles,
         OutputMatches, OwnedFile, Readable, BytesAt;
    StaysPut(b, d, DoReadBack(b, d, c, i));
  }

  lemma ReleaseUnlinkMove(b: Builder, d: Disk, c: Choice)
    requires Ready(b)
    ensures Regular(b, d, DoReleaseUnlink(b, d, c))
  {
    hide Regular, CreateFile, RemoveLink, Linked, Append, Fill, Lookup, Identity, FileName, HasFiveFiles,
         OutputMatches, OwnedFile, Readable, BytesAt;
    if IsFile(d, Top(LockFile)) {
      RemoveNames(d, Top(LockFile), c.stamp);
    }
    KeepsDirectories(b, d, DoReleaseUnlink(b, d, c));
  }

  lemma ClearMove(b: Builder, d: Disk, c: Choice, dir: Name)
    requires Ready(b) && (dir == StageDir || dir == OutputDir)
    ensures Regular(b, d, DoClear(b, d, c, dir))
  {
    hide Regular, DirOf, FilesOf, HasFiveFiles;
    StaysPut(b, d, AfterClear(b, d, dir));
    StaysPut(b, d, Unclean(b, d, dir));
    StaysPut(b, d, Goto(b, d, Pick(dir)));
  }

  lemma DropMove(b: Builder, d: Disk, c: Choice, dir: Name, n: Name)
    requires Ready(b) && (dir == StageDir || dir == OutputDir)
    ensures Regular(b, d, DoDrop(b, d, c, dir, n))
  {
    hide Regular, CreateFile, RemoveLink, Linked, Append, Fill, Lookup, Identity, FileName, HasFiveFiles,
         OutputMatches, OwnedFile, Readable, BytesAt;
    if IsFile(d, Under(dir, n)) {
      RemoveNames(d, Under(dir, n), c.stamp);
    }
    KeepsDirectories(b, d, DoDrop(b, d, c, dir, n));
  }

  lemma StillMoves(b: Builder, d: Disk, c: Choice)
    requires Ready(b)
    ensures Regular(b, d, DoStart(b, d)) && Regular(b, d, DoReadingOutput(b, d, c))
    ensures Regular(b, d, DoSourceGate(b, d, c))
  {
    hide Regular, CreateFile, RemoveLink, Linked, Append, Fill, Lookup, Identity, FileName, HasFiveFiles,
         OutputMatches, OwnedFile, Readable, BytesAt;
    StaysPut(b, d, Fail(b, d));
    StaysPut(b, d, Goto(b, d, Opening));
    StaysPut(b, d, Goto(b, d, Done(Refused)));
    StaysPut(b, d, Goto(b.(present := true), d, ReleaseCheck));
    StaysPut(b, d, Goto(b.(sourceChecked := true), d, Linking(4)));
  }

  lemma CheckMoves(b: Builder, d: Disk)
    requires Ready(b)
    ensures Regular(b, d, DoCheckStage(b, d)) && Regular(b, d, DoCheckOutput(b, d))
  {
    hide Regular, CreateFile, RemoveLink, Linked, Append, Fill, Lookup, Identity, FileName, HasFiveFiles,
         OutputMatches, OwnedFile, Readable, BytesAt;
    StaysPut(b, d, DoCheckStage(b, d));
    StaysPut(b, d, DoCheckOutput(b, d));
  }

  lemma LateMoves(b: Builder, d: Disk, c: Choice)
    requires Ready(b)
    ensures Regular(b, d, DoVerifying(b, d, c)) && Regular(b, d, DoReleaseCheck(b, d, c))
  {
    hide Regular, CreateFile, RemoveLink, Linked, Append, Fill, Lookup, Identity, FileName, HasFiveFiles,
         OutputMatches, OwnedFile, Readable, BytesAt;
    StaysPut(b, d, DoVerifying(b, d, c));
    StaysPut(b, d, DoReleaseCheck(b, d, c));
  }

  lemma MkdirMoves(b: Builder, d: Disk, c: Choice)
    requires Ready(b)
    ensures Regular(b, d, DoMakingStage(b, d, c)) && Regular(b, d, DoMakingOutput(b, d, c))
  {
    hide HasFiveFiles, FileName, Lookup, Identity;
  }

  lemma RemovingStageMove(b: Builder, d: Disk, c: Choice)
    requires Ready(b)
    ensures Regular(b, d, DoRemovingStage(b, d, c))
  {
    hide HasFiveFiles, FileName, Lookup, Identity;
  }

  lemma PickMove(b: Builder, d: Disk, c: Choice, dir: Name)
    requires Ready(b) && (dir == StageDir || dir == OutputDir)
    ensures Regular(b, d, DoPick(b, d, c, dir))
  {
    hide Regular, DirOf, FilesOf, WithoutDir, CreateFile, RemoveLink, Linked, Append, Fill, Lookup, Identity,
         FileName, HasFiveFiles, OutputMatches, OwnedFile, Readable, BytesAt;
    if c.ok && dir in d.top && d.top[dir].DirAt? && d.top[dir].children == map[] {
      PickEmptyRegular(b, d, c, dir);
    } else {
      StaysPut(b, d, Unclean(b, d, dir));
      StaysPut(b, d, Goto(b, d, Drop(dir, c.name)));
    }
  }

  lemma PickEmptyRegular(b: Builder, d: Disk, c: Choice, dir: Name)
    requires Ready(b) && (dir == StageDir || dir == OutputDir)
    requires c.ok && dir in d.top && d.top[dir].DirAt? && d.top[dir].children == map[]
    ensures Regular(b, d, DoPick(b, d, c, dir))
  {
    hide OwnedFile, HasFiveFiles, Lookup, Identity;
  }

  lemma NextRegular(b: Builder, d: Disk, c: Choice)
    requires Ready(b)
    ensures Regular(b, d, Next(b, d, c)) && Ready(Next(b, d, c).b)
  {
    hide HasFiveFiles, Follows, DoStart, DoOpening, DoFillingLock, DoCheckStage, DoCheckOutput, DoReadingOutput,
         DoMakingStage, DoStaging, DoFilling, DoMakingOutput, DoSourceGate, DoLinking, DoUnstaging, DoUnstageUnlink,
         DoReadBack, DoRemovingStage, DoVerifying, DoClear, DoPick, DoDrop, DoReleaseCheck, DoReleaseUnlink;
    match b.pc
    case Start | ReadingOutput | SourceGate => StillMoves(b, d, c);
    case Opening => OpeningMove(b, d, c);
    case FillingLock => FillingLockMove(b, d, c);
    case CheckStage | CheckOutput => CheckMoves(b, d);
    case Verifying | ReleaseCheck => LateMoves(b, d, c);
    case MakingStage | MakingOutput => MkdirMoves(b, d, c);
    case RemovingStage => RemovingStageMove(b, d, c);
    case Staging(i) => StagingMove(b, d, c, i);
    case Filling(i) => FillingMove(b, d, c, i);
    case Linking(i) => LinkingMove(b, d, c, i);
    case Unstaging(i) => UnstagingMove(b, d, c, i);
    case UnstageUnlink(i) => UnstageUnlinkMove(b, d, c, i);
    case ReadBack(i) => ReadBackMove(b, d, c, i);
    case ReleaseUnlink => ReleaseUnlinkMove(b, d, c);
    case Clear(dir) => ClearMove(b, d, c, dir);
    case Pick(dir) => PickMove(b, d, c, dir);
    case Drop(dir, n) => DropMove(b, d, c, dir, n);
    case Done(_) => StayRegular(b, d);
  }

  lemma StayRegular(b: Builder, d: Disk)
    requires Ready(b)
    ensures Regular(b, d, Config(b, d))
  {
  }

  predicate AllReady(s: System) {
    forall i :: 0 <= i < |s.builders| ==> Ready(s.builders[i])
  }

  function Step(s: System, t: Turn): (s': System)
    requires AllReady(s)
    ensures AllReady(s') && |s'.builders| == |s.builders|
  {
    if t.who >= |s.builders| then s
    else
      NextRegular(s.builders[t.who], s.disk, t.choice);
      var next := Next(s.builders[t.who], s.disk, t.choice);
      System(next.d, s.builders[t.who := next.b])
  }

  function Run(s: System, turns: seq<Turn>): (s': System)
    requires AllReady(s)
    ensures AllReady(s') && |s'.builders| == |s.builders|
    decreases |turns|
  {
    if turns == [] then s
    else
      var s1 := Step(s, turns[0]);
      Run(s1, turns[1..])
  }

  /** Every builder is about to start, each with its own rendered files. */
  function Launch(d: Disk, bundles: seq<map<Name, Bytes>>): (s: System)
    requires forall i :: 0 <= i < |bundles| ==> HasFiveFiles(bundles[i])
    ensures AllReady(s) && |s.builders| == |bundles|
  {
    System(d, seq(|bundles|, i requires 0 <= i < |bundles| => Idle(bundles[i])))
  }

  // ---- one builder's step ----

  ghost predicate Sound(d0: Disk, b: Builder, d: Disk) {
    && Ready(b)
    && (if HoldsLock(b) then HolderInv(d0, b, d) else OutsiderInv(b, d))
    && b.own <= d.nodes.Keys && b.own !! d0.nodes.Keys
  }

  lemma HolderForward(d0: Disk, b: Builder, d: Disk, c: Choice)
    requires Consistent(d) && Kept(d0, d) && Ready(b) && HoldsLock(b) && HolderInv(d0, b, d) && !b.failed
    requires !b.pc.FillingLock? && !b.pc.ReleaseCheck? && !b.pc.ReleaseUnlink?
    ensures StepKeeps(d0, b, d, Next(b, d, c))
  {
    hide Consistent, Kept, Frame, HolderInv, HasFiveFiles;
    assert Forward(b, d) && b.lock.Some? && !b.present by { FailsOnlyLate(d0, b, d); }
    match b.pc
    case CheckStage => StepCheckStage(d0, b, d);
    case CheckOutput => StepCheckOutput(d0, b, d);
    case ReadingOutput => StepReadingOutput(d0, b, d, c);
    case MakingStage => StepMakingStage(d0, b, d, c);
    case Staging(i) => StepStaging(d0, b, d, c);
    case Filling(i) => StepFilling(d0, b, d, c);
    case MakingOutput => StepMakingOutput(d0, b, d, c);
    case SourceGate => StepSourceGate(d0, b, d, c);
    case Linking(i) => StepLinking(d0, b, d, c);
    case Unstaging(i) => StepUnstaging(d0, b, d, c);
    case UnstageUnlink(i) => StepUnstageUnlink(d0, b, d, c);
    case ReadBack(i) => StepReadBack(d0, b, d, c);
    case RemovingStage => StepRemovingStage(d0, b, d, c);
    case Verifying => StepVerifying(d0, b, d, c);
    case _ => assert false;
  }

  lemma FailsOnlyLate(d0: Disk, b: Builder, d: Disk)
    requires HasFiveFiles(b.files) && HolderInv(d0, b, d) && !b.failed
    requires !b.pc.FillingLock? && !b.pc.ReleaseCheck? && !b.pc.ReleaseUnlink?
    ensures Forward(b, d) && b.lock.Some? && !b.present
  {
  }

  lemma HolderCleanup(d0: Disk, b: Builder, d: Disk, c: Choice)
    requires Consistent(d) && Ready(b) && HoldsLock(b) && HolderInv(d0, b, d) && b.failed
    requires !b.pc.ReleaseCheck? && !b.pc.ReleaseUnlink?
    ensures StepKeeps(d0, b, d, Next(b, d, c))
  {
    hide Consistent, Frame, HolderInv, HasFiveFiles;
    assert Cleaning(b, d) by { CleansWhenFailed(d0, b, d); }
    match b.pc
    case Clear(dir) => StepClear(d0, b, d, c);
    case Pick(dir) => StepPick(d0, b, d, c);
    case Drop(dir, n) => StepDrop(d0, b, d, c);
    case _ => assert false;
  }

  lemma CleansWhenFailed(d0: Disk, b: Builder, d: Disk)
    requires HasFiveFiles(b.files) && HolderInv(d0, b, d) && b.failed
    ensures Cleaning(b, d)
  {
  }

  /** A builder under the lock stays sound and touches only what it owns. */
  lemma HolderStep(d0: Disk, b: Builder, d: Disk, c: Choice)
    requires Consistent(d) && Kept(d0, d) && Ready(b) && HoldsLock(b) && HolderInv(d0, b, d)
    ensures var next := Next(b, d, c);
            && Frame(b, d, next.b, next.d) && Ready(next.b)
            && (if HoldsLock(next.b) then HolderInv(d0, next.b, next.d) else OutsiderInv(next.b, next.d))
  {
    hide Consistent, Kept, Frame, HolderInv, OutsiderInv, HasFiveFiles;
    NextRegular(b, d, c);
    if b.pc.FillingLock? {
      StepFillingLock(d0, b, d, c);
    } else if b.pc.ReleaseCheck? {
      StepReleaseCheck(d0, b, d, c);
    } else if b.pc.ReleaseUnlink? {
      StepReleaseUnlink(d0, b, d, c);
    } else if b.failed {
      HolderCleanup(d0, b, d, c);
    } else {
      HolderForward(d0, b, d, c);
    }
  }

  /** A builder outside the lock can only take a lock that nobody holds. */
  lemma OutsiderStep(d0: Disk, b: Builder, d: Disk, c: Choice)
    requires Consistent(d) && Kept(d0, d) && Ready(b) && !HoldsLock(b) && OutsiderInv(b, d) && b.own <= d.nodes.Keys
    ensures var next := Next(b, d, c);
            && Frame(b, d, next.b, next.d) && Ready(next.b)
            && (if HoldsLock(next.b) then HolderInv(d0, next.b, next.d) && LockFile !in d.top
                && b.pc.Opening? else OutsiderInv(next.b, next.d))
            && (next.d != d ==> LockFile !in d.top && b == Idle(b.files).(pc := b.pc))
            && (Succeeded(next.b) || b.pc.Done? ==> next == Config(b, d))
  {
    hide Consistent, Frame, HasFiveFiles, OutputMatches, HolderInv;
    NextRegular(b, d, c);
    var next := Next(b, d, c);
    if HoldsLock(next.b) {
      TakesLock(d0, b, d, c);
    } else {
      FrameStay(b, d, next.b);
    }
  }

  lemma TakesLock(d0: Disk, b: Builder, d: Disk, c: Choice)
    requires Consistent(d) && Kept(d0, d) && Ready(b) && b.pc.Opening? && OutsiderInv(b, d) && b.own <= d.nodes.Keys
    requires HoldsLock(Next(b, d, c).b)
    ensures var next := Next(b, d, c);
            Frame(b, d, next.b, next.d) && HolderInv(d0, next.b, next.d) && LockFile !in d.top
  {
    hide Consistent, Frame, HasFiveFiles, OutputMatches;
    var next := Next(b, d, c);
    FrameCreate(b, d, next.b, Top(LockFile), c.ino, c.stamp);
  }

  // ---- the invariant of the whole system ----

  /** What any two builders have to do with each other. */
  ghost predicate Apart(a: Builder, b: Builder) {
    && !(HoldsLock(a) && HoldsLock(b))
    && a.own !! b.own
    && !(a.session.stage.Some? && b.session.stage.Some?)
    && !(a.session.output.Some? && b.session.output.Some?)
    && (Succeeded(a) && HoldsLock(b) ==> b.session.output.None?)
    && (Succeeded(b) && HoldsLock(a) ==> a.session.output.None?)
  }

  ghost predicate Claimed(builders: seq<Builder>, k: Ino) {
    exists i :: 0 <= i < |builders| && k in builders[i].own
  }

  ghost predicate MadeBySomeone(builders: seq<Builder>, n: Name) {
    exists i :: 0 <= i < |builders| && DirOf(builders[i].session, n).Some?
  }

  /** Whatever is new in `.local` belongs to some builder. */
  ghost predicate Accounted(d0: Disk, s: System) {
    && (forall n :: n != LockFile && n != StageDir && n != OutputDir ==> SameAt(d0, s.disk, n))
    && (LockFile in s.disk.top && LockFile !in d0.top ==> s.disk.top[LockFile].FileAt?)
    && (forall k :: k in s.disk.nodes && k !in d0.nodes ==> Claimed(s.builders, k))
    && (forall n :: n == StageDir || n == OutputDir ==> n in s.disk.top && n !in d0.top ==>
        MadeBySomeone(s.builders, n))
  }

  ghost predicate AllSound(d0: Disk, s: System) {
    forall i :: 0 <= i < |s.builders| ==> Sound(d0, s.builders[i], s.disk)
  }

  ghost predicate AllApart(builders: seq<Builder>) {
    forall i, j :: 0 <= i < |builders| && 0 <= j < |builders| && i != j ==> Apart(builders[i], builders[j])
  }

  ghost predicate Inv(d0: Disk, s: System) {
    && Consistent(s.disk) && Kept(d0, s.disk) && SameExcess(d0, s.disk)
    && AllSound(d0, s) && AllApart(s.builders) && Accounted(d0, s)
  }

  lemma LaunchInv(d0: Disk, bundles: seq<map<Name, Bytes>>)
    requires Consistent(d0) && forall i :: 0 <= i < |bundles| ==> HasFiveFiles(bundles[i])
    ensures Inv(d0, Launch(d0, bundles))
  {
    hide Consistent, HasFiveFiles, OutputMatches;
    var s := Launch(d0, bundles);
    forall i | 0 <= i < |bundles| ensures Sound(d0, s.builders[i], d0) {
      assert s.builders[i] == Idle(bundles[i]);
    }
  }

  lemma KeptByStep(d0: Disk, b: Builder, d: Disk, b': Builder, d': Disk)
    requires Kept(d0, d) && Sound(d0, b, d) && Frame(b, d, b', d')
    requires HoldsLock(b) || b.session == NO_SESSION
    ensures Kept(d0, d')
  {
    hide Consistent, SameExcess, Forward, Cleaning, HasFiveFiles, OutputMatches, Alive;
    forall n | n in d0.top ensures n in d'.top && d'.top[n] == d0.top[n] {
      assert n in d.top && d.top[n] == d0.top[n];
      assert SameAt(d, d', n);
    }
    forall k | k in d0.nodes ensures k in d'.nodes && d'.nodes[k] == d0.nodes[k] {
      assert k in d.nodes && d.nodes[k] == d0.nodes[k];
      assert k !in b.own;
    }
  }

  lemma OutputUndisturbed(d0: Disk, b: Builder, d: Disk, b': Builder, d': Disk, files: map<Name, Bytes>)
    requires Consistent(d) && Sound(d0, b, d) && Frame(b, d, b', d') && OutputMatches(d, files)
    requires b.session.output.None? && (HoldsLock(b) || b.own == {})
    ensures OutputMatches(d', files)
  {
    hide Consistent, SameExcess, Forward, Cleaning, HasFiveFiles;
    forall n | n in OutputNames()
      ensures Readable(d', Under(OutputDir, n), OUTPUT_FILE_MAX_BYTES)
      ensures BytesAt(d', Under(OutputDir, n)) == BytesAt(d, Under(OutputDir, n))
    {
      assert Readable(d, Under(OutputDir, n), OUTPUT_FILE_MAX_BYTES);
      Unshared(d, Under(OutputDir, n), StageDir);
      if HoldsLock(b) {
        LockUnshared(d0, b, d);
      }
      assert Lookup(d, Under(OutputDir, n)).value !in b.own;
    }
    assert Stored(d') == Stored(d);
  }

  /** A builder outside the lock is not affected by anyone else's step. */
  lemma BystanderKept(d0: Disk, a: Builder, b: Builder, d: Disk, b': Builder, d': Disk)
    requires Consistent(d) && Sound(d0, a, d) && Sound(d0, b, d) && Apart(a, b) && Frame(b, d, b', d')
    requires !HoldsLock(a) && (HoldsLock(b) || b == Idle(b.files).(pc := b.pc))
    ensures Sound(d0, a, d')
  {
    hide Consistent, SameExcess, HasFiveFiles, OutputMatches, HolderInv;
    if Succeeded(a) {
      OutputUndisturbed(d0, b, d, b', d', a.files);
    }
    if a.pc == Done(Published) {
      assert SameAt(d, d', OutputDir);
    }
  }

  lemma StillApart(d0: Disk, a: Builder, b: Builder, d: Disk, c: Choice)
    requires Consistent(d) && Kept(d0, d) && Sound(d0, a, d) && Sound(d0, b, d) && Apart(a, b)
    ensures var b' := Next(b, d, c).b; Apart(a, b') && Apart(b', a)
  {
    hide Consistent, Kept, HasFiveFiles, Next;
    var next := Next(b, d, c);
    NextRegular(b, d, c);
    if HoldsLock(b) {
      HolderStep(d0, b, d, c);
    } else {
      OutsiderStep(d0, b, d, c);
    }
    assert Frame(b, d, next.b, next.d);
    ApartAfter(d0, a, b, d, next);
  }

  lemma ApartAfter(d0: Disk, a: Builder, b: Builder, d: Disk, next: Config)
    requires Sound(d0, a, d) && Apart(a, b) && Frame(b, d, next.b, next.d) && Regular(b, d, next)
    requires HoldsLock(next.b) && !HoldsLock(b) ==> LockFile !in d.top && b.session == NO_SESSION
    requires Succeeded(next.b) ==> HoldsLock(b) || next.b == b
    ensures Apart(a, next.b) && Apart(next.b, a)
  {
    hide Consistent, SameExcess, HasFiveFiles, Forward, Cleaning, Alive;
    assert a.session.stage.Some? ==> StageDir in d.top;
    assert a.session.output.Some? ==> OutputDir in d.top;
    assert HoldsLock(a) ==> LockFile in d.top;
    assert Succeeded(a) ==> OutputDir in d.top;
  }

  lemma AccountedAfter(d0: Disk, s: System, i: nat, next: Config)
    requires Accounted(d0, s) && i < |s.builders| && Frame(s.builders[i], s.disk, next.b, next.d)
    requires Regular(s.builders[i], s.disk, next)
    ensures Accounted(d0, System(next.d, s.builders[i := next.b]))
  {
    hide Consistent, SameExcess;
    var bs' := s.builders[i := next.b];
    assert bs'[i] == next.b;
    forall k | k in next.d.nodes && k !in d0.nodes ensures Claimed(bs', k) {
      if k !in next.b.own {
        assert Claimed(s.builders, k);
        var j :| 0 <= j < |s.builders| && k in s.builders[j].own;
        assert j != i && bs'[j] == s.builders[j];
      }
    }
    forall n | (n == StageDir || n == OutputDir) && n in next.d.top && n !in d0.top ensures MadeBySomeone(bs', n) {
      if DirOf(next.b.session, n).None? {
        assert MadeBySomeone(s.builders, n);
        var j :| 0 <= j < |s.builders| && DirOf(s.builders[j].session, n).Some?;
        assert j != i && bs'[j] == s.builders[j];
      } else {
        assert DirOf(bs'[i].session, n).Some?;
      }
    }
    forall n | n != LockFile && n != StageDir && n != OutputDir ensures SameAt(d0, next.d, n) {
      assert SameAt(d0, s.disk, n) && SameAt(s.disk, next.d, n);
    }
  }

  lemma SoundAfter(d0: Disk, b: Builder, d: Disk, c: Choice)
    requires Consistent(d) && Kept(d0, d) && Sound(d0, b, d)
    ensures var next := Next(b, d, c); Frame(b, d, next.b, next.d) && Regular(b, d, next)
    ensures var next := Next(b, d, c); Kept(d0, next.d) && Sound(d0, next.b, next.d)
    ensures var next := Next(b, d, c); HoldsLock(next.b) && !HoldsLock(b) ==>
            LockFile !in d.top && b == Idle(b.files).(pc := b.pc)
  {
    hide Consistent, HasFiveFiles, Next, Regular, OutputMatches;
    var next := Next(b, d, c);
    NextRegular(b, d, c);
    if HoldsLock(b) {
      HolderStep(d0, b, d, c);
    } else {
      OutsiderStep(d0, b, d, c);
    }
    if next.d == d {
    } else {
      KeptByStep(d0, b, d, next.b, next.d);
    }
    OwnStaysNew(d0, b, d, next);
  }

  lemma OwnStaysNew(d0: Disk, b: Builder, d: Disk, next: Config)
    requires Kept(d0, d) && Frame(b, d, next.b, next.d) && b.own <= d.nodes.Keys && b.own !! d0.nodes.Keys
    ensures next.b.own <= next.d.nodes.Keys && next.b.own !! d0.nodes.Keys
  {
    hide Consistent, SameExcess;
    assert d0.nodes.Keys <= d.nodes.Keys;
  }

  lemma OthersSound(d0: Disk, a: Builder, b: Builder, d: Disk, c: Choice)
    requires Consistent(d) && Kept(d0, d) && Sound(d0, a, d) && Sound(d0, b, d) && Apart(a, b)
    ensures Sound(d0, a, Next(b, d, c).d)
  {
    hide Consistent, Kept, HasFiveFiles, Next, Frame, OutputMatches, OutsiderInv;
    var next := Next(b, d, c);
    if HoldsLock(b) {
      HolderStep(d0, b, d, c);
    } else {
      OutsiderStep(d0, b, d, c);
    }
    if next.d != d {
      assert !HoldsLock(a);
      BystanderKept(d0, a, b, d, next.b, next.d);
    }
  }

  /** One turn of any builder keeps the invariant. */
  lemma StepInv(d0: Disk, s: System, t: Turn)
    requires AllReady(s) && Inv(d0, s)
    ensures Inv(d0, Step(s, t))
  {
    hide Consistent, Kept, SameExcess, HasFiveFiles, Next, Regular, Frame, Sound, Apart, Accounted;
    if t.who < |s.builders| {
      var b := s.builders[t.who];
      var next := Next(b, s.disk, t.choice);
      var s' := Step(s, t);
      SoundAfter(d0, b, s.disk, t.choice);
      AccountedAfter(d0, s, t.who, next);
      ExcessAfter(d0, b, s.disk, next);
      forall i | 0 <= i < |s.builders| && i != t.who ensures Sound(d0, s'.builders[i], s'.disk)
          && Apart(s'.builders[i], next.b) && Apart(next.b, s'.builders[i]) {
        OthersSound(d0, s.builders[i], b, s.disk, t.choice);
        StillApart(d0, s.builders[i], b, s.disk, t.choice);
      }
    }
  }

  lemma ExcessAfter(d0: Disk, b: Builder, d: Disk, next: Config)
    requires SameExcess(d0, d) && Frame(b, d, next.b, next.d)
    ensures Consistent(next.d) && SameExcess(d0, next.d)
  {
    hide Excess;
  }

  /** Every schedule, of any length, keeps the invariant. */
  lemma {:induction false} RunInv(d0: Disk, s: System, turns: seq<Turn>)
    requires AllReady(s) && Inv(d0, s)
    ensures Inv(d0, Run(s, turns))
    decreases |turns|
  {
    hide Inv, Step, AllReady;
    if turns != [] {
      StepInv(d0, s, turns[0]);
      RunInv(d0, Step(s, turns[0]), turns[1..]);
    }
  }
}
