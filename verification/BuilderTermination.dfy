/** Every builder stops: however its calls turn out, and whatever the other builders do
    meanwhile, it has only so many moves of its own to make
    (tools/local-stack/build_submission_bundle.py:2162-2285). */
module BuilderTermination {
  import opened Basics
  import opened LocalDisk
  import opened BundleFiles
  import opened BundleState
  import opened BuilderSteps
  import opened ConcurrentBuilders
  import opened BuilderRuns
  import opened BuilderSafety

  // ---- how many moves are left ----

  /** What a directory of this session still has in it. */
  function Entries(id: Option<DirId>, d: Disk, dir: Name): nat {
    if id.Some? && dir in d.top && d.top[dir].DirAt? then |d.top[dir].children| else 0
  }

  /** How many more bytes file `p` is to get; each write moves at least one. */
  function Missing(d: Disk, p: Path, payload: Bytes): nat {
    if IsFile(d, p) && |BytesAt(d, p)| < |payload| then |payload| - |BytesAt(d, p)| else 0
  }

  function MissingLock(d: Disk, ino: Ino): nat {
    if ino in d.nodes && |d.nodes[ino].bytes| < |LOCK_BYTES| then |LOCK_BYTES| - |d.nodes[ino].bytes| else 0
  }

  /** Creating, filling and recording the files from the i-th on. */
  function Stagings(files: map<Name, Bytes>, i: nat): nat
    requires HasFiveFiles(files) && i <= 5
    decreases 5 - i
  {
    if i == 5 then 0 else 2 + |files[FileName(i)]| + Stagings(files, i + 1)
  }

  /** At most this many moves, by the rendered files alone. */
  function Budget(files: map<Name, Bytes>): nat
    requires HasFiveFiles(files)
  {
    262 + |LOCK_BYTES| + Stagings(files, 0)
  }

  predicate InCleanup(pc: Pc) {
    pc.Clear? || pc.Pick? || pc.Drop?
  }

  function CleanupFuel(pc: Pc, stage: nat, output: nat): nat
    requires InCleanup(pc)
  {
    var step := if pc.Clear? then 6 else if pc.Pick? then 5 else 4;
    step + 2 * stage + (if pc.dir == OutputDir then 4 + 2 * output else 0)
  }

  /** A bound on the moves that are left. In the cleanup each file costs a check and an
      unlink; the forward steps leave room for that, since they may fail at any point. */
  function Fuel(b: Builder, d: Disk): nat
    requires Ready(b)
  {
    var stage, output := Entries(b.session.stage, d, StageDir), Entries(b.session.output, d, OutputDir);
    match b.pc
    case Start => Budget(b.files)
    case Opening => Budget(b.files) - 1
    case FillingLock => 260 + MissingLock(d, b.lockIno) + Stagings(b.files, 0)
    case CheckStage => 250 + Stagings(b.files, 0)
    case CheckOutput => 240 + Stagings(b.files, 0)
    case MakingStage => 230 + Stagings(b.files, 0)
    case Staging(i) => 200 + Stagings(b.files, i)
    case Filling(i) => 201 + Missing(d, Under(StageDir, FileName(i)), b.files[FileName(i)]) + Stagings(b.files, i + 1)
    case MakingOutput => 200
    case Linking(i) => 160 - 5 * i
    case Unstaging(i) => 159 - 5 * i
    case UnstageUnlink(i) => 158 - 5 * i
    case ReadBack(i) => 157 - 5 * i
    case SourceGate => 141
    case ReadingOutput => 100
    case RemovingStage => 70
    case Verifying => 69
    case Clear(_) | Pick(_) | Drop(_, _) => CleanupFuel(b.pc, stage, output)
    case ReleaseCheck => 2
    case ReleaseUnlink => 1
    case Done(_) => 0
  }

  ghost predicate Falls(b: Builder, d: Disk, next: Config)
    requires Ready(b)
  {
    Ready(next.b) && Fuel(next.b, next.d) < Fuel(b, d)
  }

  // ---- the forward steps ----

  lemma FewNames(names: set<Name>)
    requires names <= OutputNames()
    ensures |names| <= 5
  {
    CardinalityMonotone(names, OutputNames());
  }

  lemma PrefixFew(i: nat)
    requires i <= 5
    ensures |Prefix(i)| <= 5 && |Remaining(i)| <= 5 && |OutputNames()| <= 5
  {
    PrefixIs(i);
    FewNames(Prefix(i));
    FewNames(Remaining(i));
    FewNames(OutputNames());
  }

  predicate OnTheMove(pc: Pc) {
    !pc.Start? && !pc.Opening? && !pc.Clear? && !pc.Pick? && !pc.Drop? && !pc.ReleaseCheck? && !pc.ReleaseUnlink?
        && !pc.Done?
  }

  /** Moving forward, neither directory ever has more than the five files in it. */
  lemma ForwardFew(b: Builder, d: Disk)
    requires Ready(b) && Forward(b, d) && !b.pc.ReleaseCheck? && !b.pc.ReleaseUnlink?
    ensures OnTheMove(b.pc)
    ensures Entries(b.session.stage, d, StageDir) <= 5 && Entries(b.session.output, d, OutputDir) <= 5
  {
    hide HasFiveFiles, Prefix, Remaining, OutputNames, FileName, OwnedFile, FileIs, OutputMatches;
    var i := if b.pc.Staging? || b.pc.Filling? || b.pc.Linking? || b.pc.Unstaging? || b.pc.UnstageUnlink?
        || b.pc.ReadBack? then b.pc.i else 4;
    PrefixFew(i);
    PrefixFew(i + 1);
  }

  ghost predicate Roomy(b: Builder, d: Disk) {
    Ready(b) && OnTheMove(b.pc) && Entries(b.session.stage, d, StageDir) <= 5
        && Entries(b.session.output, d, OutputDir) <= 5
  }

  lemma FailFalls(b: Builder, d: Disk)
    requires Roomy(b, d)
    ensures Falls(b, d, Fail(b, d))
  {
    hide HasFiveFiles, FileName, Missing, MissingLock, Entries, Stagings;
  }

  lemma FillingLockFalls(b: Builder, d: Disk, c: Choice)
    requires Roomy(b, d) && b.pc.FillingLock?
    ensures Falls(b, d, DoFillingLock(b, d, c))
  {
    hide HasFiveFiles, FileName, Stagings, Entries;
  }

  lemma EarlyFalls(b: Builder, d: Disk, c: Choice)
    requires Roomy(b, d)
    requires (b.pc.CheckStage? || b.pc.CheckOutput? || b.pc.ReadingOutput? || b.pc.MakingStage? || b.pc.MakingOutput?
        || b.pc.SourceGate?)
    ensures Falls(b, d, Next(b, d, c))
  {
    hide HasFiveFiles, FileName, Stagings, Entries, OutputMatches;
    FailFalls(b, d);
  }

  lemma StagingFalls(b: Builder, d: Disk, c: Choice)
    requires Roomy(b, d) && b.pc.Staging?
    ensures Falls(b, d, DoStaging(b, d, c, b.pc.i))
  {
    hide HasFiveFiles, FileName, Entries;
    FailFalls(b, d);
  }

  lemma FillShrinks(d: Disk, p: Path, payload: Bytes, c: Choice)
    requires IsFile(d, p) && |BytesAt(d, p)| < |payload|
    ensures Missing(Fill(d, Lookup(d, p).value, payload, c), p, payload) < Missing(d, p, payload)
  {
    assert Lookup(Fill(d, Lookup(d, p).value, payload, c), p) == Lookup(d, p);
  }

  lemma FillingFuel(b: Builder, d: Disk)
    requires Ready(b)
    ensures b.pc.Filling? ==>
            Fuel(b, d) == 201 + Missing(d, Under(StageDir, FileName(b.pc.i)),
            b.files[FileName(b.pc.i)]) + Stagings(b.files, b.pc.i + 1)
    ensures b.pc.Staging? ==> Fuel(b, d) == 200 + Stagings(b.files, b.pc.i)
    ensures b.pc.MakingOutput? ==> Fuel(b, d) == 200
  {
    hide HasFiveFiles, Stagings, Missing, MissingLock, FileName, Entries, CleanupFuel;
  }

  lemma FillingFalls(b: Builder, d: Disk, c: Choice)
    requires Roomy(b, d) && b.pc.Filling?
    ensures Falls(b, d, DoFilling(b, d, c, b.pc.i))
  {
    hide FileName, Stagings, Missing, Fill, Fuel, Roomy, Falls, Identity;
    assert Ready(b) by { RoomyReady(b, d); }
    var n := FileName(b.pc.i);
    var p := Under(StageDir, n);
    FailFalls(b, d);
    if c.ok && IsFile(d, p) {
      if |BytesAt(d, p)| < |b.files[n]| {
        WriteFalls(b, d, c);
      } else {
        RecordFalls(b, d, Identity(d, Lookup(d, p).value));
      }
    }
  }

  lemma WriteFalls(b: Builder, d: Disk, c: Choice)
    requires Ready(b) && b.pc.Filling?
    requires IsFile(d, Under(StageDir, FileName(b.pc.i)))
    requires |BytesAt(d, Under(StageDir, FileName(b.pc.i)))| < |b.files[FileName(b.pc.i)]|
    ensures var p, payload := Under(StageDir, FileName(b.pc.i)), b.files[FileName(b.pc.i)];
            Falls(b, d, Config(b, Fill(d, Lookup(d, p).value, payload, c)))
  {
    hide FileName, Stagings, Missing, Fill, Fuel;
    var p, payload := Under(StageDir, FileName(b.pc.i)), b.files[FileName(b.pc.i)];
    FillShrinks(d, p, payload, c);
    FillingFuel(b, d);
    FillingFuel(b, Fill(d, Lookup(d, p).value, payload, c));
  }

  lemma RecordFalls(b: Builder, d: Disk, id: FileIdentity)
    requires Ready(b) && b.pc.Filling?
    ensures var s := b.session.(stageFiles := b.session.stageFiles[FileName(b.pc.i) := id]);
            Falls(b, d, Goto(b.(session := s), d, if b.pc.i == 4 then MakingOutput else Staging(b.pc.i + 1)))
  {
    hide FileName, Stagings, Missing, Fuel, HasFiveFiles;
    var s := b.session.(stageFiles := b.session.stageFiles[FileName(b.pc.i) := id]);
    FillingFuel(b, d);
    FillingFuel(Goto(b.(session := s), d, if b.pc.i == 4 then MakingOutput else Staging(b.pc.i + 1)).b, d);
  }

  lemma RoomyReady(b: Builder, d: Disk)
    requires Roomy(b, d)
    ensures Ready(b)
  {
  }

  lemma LinkingFalls(b: Builder, d: Disk, c: Choice)
    requires Roomy(b, d) && (b.pc.Linking? || b.pc.Unstaging?)
    ensures Falls(b, d, Next(b, d, c))
  {
    hide HasFiveFiles, FileName, Stagings, Entries, OutputMatches, OwnedFile, Linked, Identity, Readable, BytesAt;
    FailFalls(b, d);
  }

  lemma ReadBackFalls(b: Builder, d: Disk, c: Choice)
    requires Roomy(b, d) && b.pc.ReadBack?
    ensures Falls(b, d, Next(b, d, c))
  {
    hide HasFiveFiles, FileName, Stagings, Entries, OutputMatches, OwnedFile, Linked, Identity, Readable, BytesAt;
    FailFalls(b, d);
  }

  lemma LateFalls(b: Builder, d: Disk, c: Choice)
    requires Roomy(b, d) && (b.pc.RemovingStage? || b.pc.Verifying?)
    ensures Falls(b, d, Next(b, d, c))
  {
    hide HasFiveFiles, FileName, Stagings, Entries, OutputMatches, OwnedFile, Linked, Identity, Readable, BytesAt;
    FailFalls(b, d);
  }

  lemma UnstageUnlinkFalls(b: Builder, d: Disk, c: Choice)
    requires Roomy(b, d) && b.pc.UnstageUnlink?
    ensures Falls(b, d, DoUnstageUnlink(b, d, c, b.pc.i))
  {
    hide HasFiveFiles, FileName, Stagings, Entries, RemoveLink;
    FailFalls(b, d);
  }

  lemma ForwardFalls(b: Builder, d: Disk, c: Choice)
    requires Roomy(b, d)
    ensures Falls(b, d, Next(b, d, c))
  {
    hide Falls, Fuel, DoFillingLock, DoStaging, DoFilling, DoUnstageUnlink, DoLinking, DoUnstaging, DoReadBack,
         DoRemovingStage, DoVerifying, DoCheckStage, DoCheckOutput, DoReadingOutput, DoMakingStage, DoMakingOutput,
         DoSourceGate, Entries;
    match b.pc
    case FillingLock => FillingLockFalls(b, d, c);
    case Staging(_) => StagingFalls(b, d, c);
    case Filling(_) => FillingFalls(b, d, c);
    case UnstageUnlink(_) => UnstageUnlinkFalls(b, d, c);
    case Linking(_) | Unstaging(_) => LinkingFalls(b, d, c);
    case ReadBack(_) => ReadBackFalls(b, d, c);
    case RemovingStage | Verifying => LateFalls(b, d, c);
    case _ => EarlyFalls(b, d, c);
  }

  // ---- the other steps ----

  lemma OpeningFalls(b: Builder, d: Disk, c: Choice)
    requires Ready(b) && (b.pc.Start? || b.pc.Opening?)
    ensures Falls(b, d, Next(b, d, c))
  {
    hide HasFiveFiles, Stagings, Entries;
  }

  lemma ReleaseFalls(b: Builder, d: Disk, c: Choice)
    requires Ready(b) && (b.pc.ReleaseCheck? || b.pc.ReleaseUnlink?)
    ensures Falls(b, d, Next(b, d, c))
  {
    hide HasFiveFiles, Stagings, Entries, RemoveLink, OwnedFile;
  }

  lemma CleanupFuelIs(b: Builder, d: Disk)
    requires Ready(b) && InCleanup(b.pc)
    ensures Fuel(b, d) == CleanupFuel(b.pc, Entries(b.session.stage, d, StageDir),
        Entries(b.session.output, d, OutputDir))
  {
    hide HasFiveFiles, Stagings, Missing, MissingLock, FileName, Entries, CleanupFuel;
  }

  /** Going on to the next directory, or to the lock, with nothing new in the stage. */
  lemma AfterClearFalls(b: Builder, d: Disk, b': Builder, d': Disk)
    requires Ready(b) && InCleanup(b.pc) && b'.files == b.files
    requires b.pc.dir == OutputDir ==> Entries(b'.session.stage, d', StageDir) == Entries(b.session.stage, d, StageDir)
    ensures Falls(b, d, AfterClear(b', d', b.pc.dir))
  {
    hide HasFiveFiles, Entries, Fuel;
    CleanupFuelIs(b, d);
    var next := AfterClear(b', d', b.pc.dir);
    if b.pc.dir == OutputDir {
      CleanupFuelIs(next.b, next.d);
    } else {
      ReleaseCheckFuel(next.b, next.d);
    }
  }

  lemma ReleaseCheckFuel(b: Builder, d: Disk)
    requires Ready(b) && b.pc.ReleaseCheck?
    ensures Fuel(b, d) == 2
  {
    hide HasFiveFiles, Stagings, Missing, MissingLock, FileName, Entries, CleanupFuel;
  }

  lemma ClearFalls(b: Builder, d: Disk, c: Choice)
    requires Ready(b) && b.pc.Clear?
    ensures Falls(b, d, DoClear(b, d, c, b.pc.dir))
  {
    hide HasFiveFiles, Fuel, Entries;
    AfterClearFalls(b, d, b, d);
    AfterClearFalls(b, d, b.(clean := false), d);
    CleanupFuelIs(b, d);
    CleanupFuelIs(b.(pc := Pick(b.pc.dir)), d);
  }

  lemma PickFalls(b: Builder, d: Disk, c: Choice)
    requires Ready(b) && b.pc.Pick?
    ensures Falls(b, d, DoPick(b, d, c, b.pc.dir))
  {
    hide HasFiveFiles, Fuel, OwnedFile, Falls;
    var dir := b.pc.dir;
    AfterClearFalls(b, d, b.(clean := false), d);
    if dir in d.top && d.top[dir].DirAt? && d.top[dir].children == map[] {
      AfterClearFalls(b, d, b.(session := WithoutDir(b.session, dir)), RemoveDir(d, dir));
    }
    PickToDrop(b, d, c.name);
  }

  lemma PickToDrop(b: Builder, d: Disk, n: Name)
    requires Ready(b) && b.pc.Pick?
    ensures Falls(b, d, Goto(b, d, Drop(b.pc.dir, n)))
  {
    hide HasFiveFiles, Fuel, Entries;
    CleanupFuelIs(b, d);
    CleanupFuelIs(b.(pc := Drop(b.pc.dir, n)), d);
  }

  lemma DropFalls(b: Builder, d: Disk, c: Choice)
    requires Ready(b) && b.pc.Drop? && DirOf(b.session, b.pc.dir).Some?
    ensures Falls(b, d, DoDrop(b, d, c, b.pc.dir, b.pc.name))
  {
    hide HasFiveFiles, Fuel, RemoveLink;
    var dir, n := b.pc.dir, b.pc.name;
    AfterClearFalls(b, d, b.(clean := false), d);
    if c.ok && IsFile(d, Under(dir, n)) {
      DropShrinks(d, dir, n, c.stamp);
      var next := DoDrop(b, d, c, dir, n);
      assert dir != StageDir ==> SameAt(d, next.d, StageDir);
      assert dir != OutputDir ==> SameAt(d, next.d, OutputDir);
      CleanupFuelIs(b, d);
      CleanupFuelIs(next.b, next.d);
    }
  }

  lemma DropShrinks(d: Disk, dir: Name, n: Name, stamp: int)
    requires IsFile(d, Under(dir, n))
    ensures var d' := RemoveLink(d, Under(dir, n), stamp);
            && dir in d'.top && d'.top[dir].DirAt? && |d'.top[dir].children| == |d.top[dir].children| - 1
            && forall o :: o != dir ==> SameAt(d, d', o)
  {
    var kids := d.top[dir].children;
    assert (kids - {n}).Keys == kids.Keys - {n};
    assert |kids.Keys| == |kids| && |(kids - {n}).Keys| == |kids - {n}|;
  }

  /** Every move of a builder that has not stopped brings it nearer to its end. */
  lemma OwnMoveFalls(d0: Disk, b: Builder, d: Disk, c: Choice)
    requires Sound(d0, b, d) && !b.pc.Done?
    ensures Falls(b, d, Next(b, d, c))
  {
    hide Falls, Next, HolderInv, OutsiderInv, HasFiveFiles, Fuel;
    if !HoldsLock(b) {
      OpeningFalls(b, d, c);
    } else if b.pc.ReleaseCheck? || b.pc.ReleaseUnlink? {
      ReleaseFalls(b, d, c);
    } else if b.failed {
      CleanupFalls(d0, b, d, c);
    } else {
      FailsOnlyLateOrForward(d0, b, d);
      ForwardFew(b, d);
      ForwardFalls(b, d, c);
    }
  }

  lemma FailsOnlyLateOrForward(d0: Disk, b: Builder, d: Disk)
    requires HasFiveFiles(b.files) && HolderInv(d0, b, d) && !b.failed
    ensures Forward(b, d)
  {
  }

  lemma CleanupFalls(d0: Disk, b: Builder, d: Disk, c: Choice)
    requires Ready(b) && HoldsLock(b) && HolderInv(d0, b, d) && b.failed && !b.pc.ReleaseCheck? && !b.pc.ReleaseUnlink?
    ensures Falls(b, d, Next(b, d, c))
  {
    hide Falls, HolderInv, HasFiveFiles, Fuel, DoClear, DoPick, DoDrop;
    CleansWhenFailed(d0, b, d);
    match b.pc
    case Clear(dir) => ClearFalls(b, d, c);
    case Pick(dir) => PickFalls(b, d, c);
    case Drop(dir, n) => DropFalls(b, d, c);
    case _ => assert false;
  }

  // ---- the others ----

  /** While a builder holds the lock nobody else changes the disk, and before and after
      that its bound does not depend on the disk. */
  lemma OtherMoveKeepsFuel(d0: Disk, s: System, t: Turn, i: nat)
    requires AllReady(s) && Inv(d0, s) && i < |s.builders| && t.who != i
    ensures Step(s, t).builders[i] == s.builders[i]
    ensures Fuel(s.builders[i], Step(s, t).disk) == Fuel(s.builders[i], s.disk)
  {
    hide Consistent, Kept, SameExcess, HasFiveFiles, Next, HolderInv, OutsiderInv, Accounted, Frame, Fuel;
    var b := s.builders[i];
    if t.who < |s.builders| && HoldsLock(b) {
      OthersWait(d0, b, s.builders[t.who], s.disk, t.choice);
    } else {
      OutsiderFuel(b, s.disk, Step(s, t).disk);
    }
  }

  lemma OthersWait(d0: Disk, a: Builder, b: Builder, d: Disk, c: Choice)
    requires Consistent(d) && Kept(d0, d) && Sound(d0, a, d) && Sound(d0, b, d) && Apart(a, b) && HoldsLock(a)
    ensures Next(b, d, c).d == d
  {
    hide Consistent, Kept, HasFiveFiles, Next, Frame, OutsiderInv, Forward, Cleaning, Alive;
    OutsiderStep(d0, b, d, c);
  }

  lemma OutsiderFuel(b: Builder, d: Disk, d': Disk)
    requires Ready(b) && (!HoldsLock(b) || d == d')
    ensures Fuel(b, d) == Fuel(b, d')
  {
    hide HasFiveFiles, Stagings, Missing, MissingLock, Entries;
  }

  // ---- whole runs ----

  /** How many of the turns are this builder's. */
  function OwnTurns(turns: seq<Turn>, i: nat): nat {
    if turns == [] then 0 else (if turns[0].who == i then 1 else 0) + OwnTurns(turns[1..], i)
  }

  lemma DoneStays(d0: Disk, s: System, t: Turn, i: nat)
    requires AllReady(s) && Inv(d0, s) && i < |s.builders| && s.builders[i].pc.Done?
    ensures Step(s, t).builders[i].pc.Done?
  {
    hide HasFiveFiles, Inv;
  }

  /** Each own turn is paid for, until the builder has stopped. */
  lemma {:induction false} TurnsArePaid(d0: Disk, s: System, turns: seq<Turn>, i: nat)
    requires AllReady(s) && Inv(d0, s) && i < |s.builders|
    ensures var s' := Run(s, turns);
            s'.builders[i].pc.Done? || Fuel(s'.builders[i], s'.disk) + OwnTurns(turns, i) <= Fuel(s.builders[i], s.disk)
    decreases |turns|
  {
    hide Inv, Fuel, Next, HasFiveFiles;
    if turns != [] {
      var t, s1 := turns[0], Step(s, turns[0]);
      StepInv(d0, s, t);
      TurnsArePaid(d0, s1, turns[1..], i);
      if s.builders[i].pc.Done? {
        StaysDone(d0, s, turns, i);
      } else if t.who == i {
        assert Sound(d0, s.builders[i], s.disk) by { InvSound(d0, s, i); }
        OwnMoveFalls(d0, s.builders[i], s.disk, t.choice);
      } else {
        OtherMoveKeepsFuel(d0, s, t, i);
      }
    }
  }

  lemma InvSound(d0: Disk, s: System, i: nat)
    requires Inv(d0, s) && i < |s.builders|
    ensures Sound(d0, s.builders[i], s.disk)
  {
    hide Consistent, Kept, SameExcess, Sound, Accounted, AllApart;
  }

  lemma {:induction false} StaysDone(d0: Disk, s: System, turns: seq<Turn>, i: nat)
    requires AllReady(s) && Inv(d0, s) && i < |s.builders| && s.builders[i].pc.Done?
    ensures Run(s, turns).builders[i].pc.Done?
    decreases |turns|
  {
    hide Inv, Step, HasFiveFiles;
    if turns != [] {
      DoneStays(d0, s, turns[0], i);
      StepInv(d0, s, turns[0]);
      StaysDone(d0, Step(s, turns[0]), turns[1..], i);
    }
  }

  /** In every run, whatever fails and however the builders' moves are interleaved, a
      builder that has had as many turns as its files allow for has stopped. */
  lemma BuildersStop(d0: Disk, bundles: seq<map<Name, Bytes>>, turns: seq<Turn>, i: nat)
    requires Consistent(d0) && Startable(bundles) && i < |bundles|
    requires OwnTurns(turns, i) >= Budget(bundles[i])
    ensures After(d0, bundles, turns).builders[i].pc.Done?
  {
    hide Consistent, HasFiveFiles, Inv, Run, Fuel, Budget;
    LaunchInv(d0, bundles);
    var s := Launch(d0, bundles);
    TurnsArePaid(d0, s, turns, i);
    StartFuel(s.builders[i], d0);
    var b := Run(s, turns).builders[i];
    if !b.pc.Done? {
      FuelWhileRunning(b, Run(s, turns).disk);
    }
  }

  lemma StartFuel(b: Builder, d: Disk)
    requires Ready(b) && b.pc.Start?
    ensures Fuel(b, d) == Budget(b.files)
  {
    hide HasFiveFiles, Stagings, Missing, MissingLock, Entries;
  }

  lemma FuelWhileRunning(b: Builder, d: Disk)
    requires Ready(b) && !b.pc.Done?
    ensures Fuel(b, d) > 0
  {
    hide HasFiveFiles, Stagings, Missing, MissingLock, Entries;
  }

  /** Reported that it had to leave a lock or a directory behind. */
  predicate LeftSomething(b: Builder) {
    b.pc == Done(LockAbandoned) || b.pc == Done(LeftoversRemain)
  }

  ghost predicate BundleFrom(d0: Disk, d: Disk, b: Builder) {
    b.pc == Done(Published) && OnlyBundleAdded(d0, d, b.files)
  }

  /** So when every builder has had its turns, and none reports that it had to leave
      something behind, `.local` is what it was, or that plus one builder's bundle. */
  lemma FairRunsEnd(d0: Disk, bundles: seq<map<Name, Bytes>>, turns: seq<Turn>)
    requires Consistent(d0) && Startable(bundles)
    requires forall i :: 0 <= i < |bundles| ==> OwnTurns(turns, i) >= Budget(bundles[i])
    ensures var s := After(d0, bundles, turns);
            || (exists i :: 0 <= i < |bundles| && LeftSomething(s.builders[i]))
            || s.disk == d0
            || (exists i :: 0 <= i < |bundles| && BundleFrom(d0, s.disk, s.builders[i]))
  {
    hide Consistent, HasFiveFiles, After, Budget, OnlyBundleAdded;
    var s := After(d0, bundles, turns);
    forall i | 0 <= i < |bundles| ensures s.builders[i].pc.Done? {
      BuildersStop(d0, bundles, turns, i);
    }
    if forall i :: 0 <= i < |bundles| ==> !LeftSomething(s.builders[i]) {
      assert Settled(s.builders) by { AllSettled(s); }
      if SomePublished(s.builders) {
        var i :| 0 <= i < |s.builders| && s.builders[i].pc == Done(Published);
        OnePublished(d0, bundles, turns, i);
        assert BundleFrom(d0, s.disk, s.builders[i]);
      } else {
        NothingPublished(d0, bundles, turns);
      }
    }
  }

  lemma AllSettled(s: System)
    requires forall i :: 0 <= i < |s.builders| ==> s.builders[i].pc.Done?
    requires forall i :: 0 <= i < |s.builders| ==> !LeftSomething(s.builders[i])
    ensures Settled(s.builders)
  {
    forall i | 0 <= i < |s.builders| ensures LeftNothing(s.builders[i]) || s.builders[i].pc == Done(Published) {
      match s.builders[i].pc.outcome
      case Refused | Failed | AlreadyThere =>
      case _ =>
    }
  }
}
