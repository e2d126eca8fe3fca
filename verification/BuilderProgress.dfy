/** The builders' protocol can always be completed: where nothing stands in the way, a
    builder that is left alone and meets no fault publishes
    (tools/local-stack/build_submission_bundle.py:2162-2285). */
module BuilderProgress {
  import opened Basics
  import opened LocalDisk
  import opened BundleFiles
  import opened BundleState
  import opened BuilderSteps
  import opened ConcurrentBuilders
  import opened BuilderRuns
  import opened BuilderSafety
  import opened BuilderTermination

  predicate Small(files: map<Name, Bytes>) {
    forall n :: n in files ==> |files[n]| <= OUTPUT_FILE_MAX_BYTES
  }

  /** A choice without faults: the call succeeds and a create gets a free inode. Writes may
      still be short. */
  predicate Kind(c: Choice, d: Disk) {
    c.ok && c.ino !in d.nodes && c.amount > 0
  }

  /** The builder holds the lock, moves forward, and nothing is in its way. */
  ghost predicate Smooth(d0: Disk, b: Builder, d: Disk) {
    && Consistent(d) && Kept(d0, d) && Sound(d0, b, d) && HoldsLock(b) && !b.failed && !b.present && Small(b.files)
    && (b.pc.FillingLock? || b.pc.CheckStage? || b.pc.CheckOutput? || b.pc.MakingStage? ==> StageDir !in d.top)
    && (b.session.output.None? ==> OutputDir !in d.top)
    && !b.pc.ReadingOutput?
  }

  /** The next move succeeds: on to the next phase, or published. */
  ghost predicate Advances(b: Builder, d: Disk, next: Config)
    requires Ready(b) && Ready(next.b)
  {
    && !next.b.failed && !next.b.present && !next.b.pc.ReadingOutput?
    && (if b.pc.ReleaseUnlink? then next.b.pc == Done(Published) else HoldsLock(next.b))
    && (next.b.pc.FillingLock? || next.b.pc.CheckStage? || next.b.pc.CheckOutput? || next.b.pc.MakingStage? ==>
          (b.pc.FillingLock? || b.pc.CheckStage? || b.pc.CheckOutput?) && next.b.session.stage.None?
              && next.b.session.output.None?)
  }

  // ---- the guards hold ----

  lemma FillingLockAdvances(d0: Disk, b: Builder, d: Disk, c: Choice)
    requires Smooth(d0, b, d) && Kind(c, d) && b.pc.FillingLock?
    ensures Ready(DoFillingLock(b, d, c).b) && Advances(b, d, DoFillingLock(b, d, c))
  {
    hide Consistent, Kept, HasFiveFiles, Small;
    assert Lookup(d, Top(LockFile)) == Some(b.lockIno);
  }

  lemma EarlyAdvances(d0: Disk, b: Builder, d: Disk, c: Choice)
    requires Smooth(d0, b, d) && Kind(c, d)
    requires b.pc.CheckStage? || b.pc.CheckOutput? || b.pc.MakingStage? || b.pc.MakingOutput? || b.pc.SourceGate?
    ensures Ready(Next(b, d, c).b) && Advances(b, d, Next(b, d, c))
  {
    hide Consistent, Kept, HasFiveFiles, Small, Tenure, Alive, Holding;
  }

  lemma StagingAdvances(d0: Disk, b: Builder, d: Disk, c: Choice)
    requires Smooth(d0, b, d) && Kind(c, d) && b.pc.Staging?
    ensures Ready(DoStaging(b, d, c, b.pc.i).b) && Advances(b, d, DoStaging(b, d, c, b.pc.i))
  {
    hide Consistent, Kept, HasFiveFiles, Small, Tenure, Alive, Prefix, Remaining, OutputNames, FileName;
    NextName(b.pc.i);
  }

  lemma FillingAdvances(d0: Disk, b: Builder, d: Disk, c: Choice)
    requires Smooth(d0, b, d) && Kind(c, d) && b.pc.Filling?
    ensures Ready(DoFilling(b, d, c, b.pc.i).b) && Advances(b, d, DoFilling(b, d, c, b.pc.i))
  {
    hide Consistent, Kept, Tenure, Alive, Holding, Prefix, Remaining, OutputNames, FileName;
    assert |b.files[FileName(b.pc.i)]| <= OUTPUT_FILE_MAX_BYTES;
  }

  lemma LinkingAdvances(d0: Disk, b: Builder, d: Disk, c: Choice)
    requires Smooth(d0, b, d) && Kind(c, d) && b.pc.Linking?
    ensures Ready(DoLinking(b, d, c, b.pc.i).b) && Advances(b, d, DoLinking(b, d, c, b.pc.i))
  {
    hide Consistent, Kept, HasFiveFiles, Small, Tenure, Alive, Prefix, Remaining, OutputNames, FileName;
    NextName(b.pc.i);
  }

  lemma UnstagingAdvances(d0: Disk, b: Builder, d: Disk, c: Choice)
    requires Smooth(d0, b, d) && Kind(c, d) && (b.pc.Unstaging? || b.pc.UnstageUnlink?)
    ensures Ready(Next(b, d, c).b) && Advances(b, d, Next(b, d, c))
  {
    hide Consistent, Kept, HasFiveFiles, Small, Tenure, Alive, Holding, Prefix, Remaining, OutputNames, FileName;
  }

  lemma ReadBackAdvances(d0: Disk, b: Builder, d: Disk, c: Choice)
    requires Smooth(d0, b, d) && Kind(c, d) && b.pc.ReadBack?
    ensures Ready(DoReadBack(b, d, c, b.pc.i).b) && Advances(b, d, DoReadBack(b, d, c, b.pc.i))
  {
    hide Consistent, Kept, Tenure, Alive, Holding, Prefix, Remaining, OutputNames, FileName;
    assert |b.files[FileName(b.pc.i)]| <= OUTPUT_FILE_MAX_BYTES;
  }

  lemma RemovingStageAdvances(d0: Disk, b: Builder, d: Disk, c: Choice)
    requires Smooth(d0, b, d) && Kind(c, d) && b.pc.RemovingStage?
    ensures Ready(DoRemovingStage(b, d, c).b) && Advances(b, d, DoRemovingStage(b, d, c))
  {
    hide Consistent, Kept, HasFiveFiles, Small, Alive, Tenure, OutputNames, OwnedFile, FileIs;
    assert d.top[StageDir].children.Keys == {};
  }

  lemma ReleaseAdvances(d0: Disk, b: Builder, d: Disk, c: Choice)
    requires Smooth(d0, b, d) && Kind(c, d) && (b.pc.ReleaseCheck? || b.pc.ReleaseUnlink?)
    ensures Ready(Next(b, d, c).b) && Advances(b, d, Next(b, d, c))
  {
    hide Consistent, Kept, HasFiveFiles, Small, Alive, Complete, OutputMatches;
  }

  /** A complete output passes the final verification. */
  lemma CompleteMatches(s: Session, files: map<Name, Bytes>, d: Disk)
    requires HasFiveFiles(files) && Complete(s, files, d) && Small(files)
    ensures OutputMatches(d, files)
  {
    forall n | n in OutputNames()
      ensures Readable(d, Under(OutputDir, n), OUTPUT_FILE_MAX_BYTES) && BytesAt(d, Under(OutputDir, n)) == files[n]
    {
      assert FileIs(d, OutputDir, n, files[n], 1);
    }
    assert Stored(d) == files;
  }

  lemma VerifyingAdvances(d0: Disk, b: Builder, d: Disk, c: Choice)
    requires Smooth(d0, b, d) && Kind(c, d) && b.pc.Verifying?
    ensures Ready(DoVerifying(b, d, c).b) && Advances(b, d, DoVerifying(b, d, c))
  {
    hide Consistent, Kept, Tenure, Alive, OutputNames, OutputMatches, Holding, HasFiveFiles;
    CompleteMatches(b.session, b.files, d);
  }

  /** Every move of a smooth builder advances it, and it stays smooth. */
  lemma SmoothStep(d0: Disk, b: Builder, d: Disk, c: Choice)
    requires Smooth(d0, b, d) && Kind(c, d)
    ensures var next := Next(b, d, c);
            && Ready(next.b) && Advances(b, d, next)
            && (HoldsLock(next.b) ==> Smooth(d0, next.b, next.d))
  {
    hide Smooth, Kind, Next, Advances, HasFiveFiles, Consistent, Kept, SameExcess, Sound;
    assert Ready(b) by { SmoothSound(d0, b, d); }
    SmoothAdvances(d0, b, d, c);
    if HoldsLock(Next(b, d, c).b) {
      SmoothStays(d0, b, d, c);
    }
  }

  lemma SmoothSound(d0: Disk, b: Builder, d: Disk)
    requires Smooth(d0, b, d)
    ensures Ready(b) && Consistent(d) && Kept(d0, d) && Sound(d0, b, d) && HoldsLock(b)
    ensures !b.failed && !b.present && (HoldsLock(b) ==> HolderInv(d0, b, d))
  {
    hide HolderInv, Consistent, Kept, HasFiveFiles;
  }

  lemma SmoothAdvances(d0: Disk, b: Builder, d: Disk, c: Choice)
    requires Smooth(d0, b, d) && Kind(c, d)
    ensures Ready(Next(b, d, c).b) && Advances(b, d, Next(b, d, c))
  {
    hide Smooth, Kind, Advances, HasFiveFiles, Consistent, Kept, HolderInv, Forward;
    SmoothSound(d0, b, d);
    SmoothPhase(d0, b, d);
    match b.pc
    case FillingLock => FillingLockAdvances(d0, b, d, c);
    case CheckStage | CheckOutput | MakingStage | MakingOutput | SourceGate => EarlyAdvances(d0, b, d, c);
    case Staging(_) => StagingAdvances(d0, b, d, c);
    case Filling(_) => FillingAdvances(d0, b, d, c);
    case Linking(_) => LinkingAdvances(d0, b, d, c);
    case Unstaging(_) | UnstageUnlink(_) => UnstagingAdvances(d0, b, d, c);
    case ReadBack(_) => ReadBackAdvances(d0, b, d, c);
    case RemovingStage => RemovingStageAdvances(d0, b, d, c);
    case Verifying => VerifyingAdvances(d0, b, d, c);
    case ReleaseCheck | ReleaseUnlink => ReleaseAdvances(d0, b, d, c);
  }

  /** A smooth builder is in one of the forward phases. */
  lemma SmoothPhase(d0: Disk, b: Builder, d: Disk)
    requires Smooth(d0, b, d)
    ensures !b.pc.Start? && !b.pc.Opening? && !b.pc.Done? && !b.pc.ReadingOutput? && !b.pc.Clear? && !b.pc.Pick?
    ensures !b.pc.Drop?
  {
    hide Consistent, Kept, HasFiveFiles, Tenure, Alive, Holding, Handing, Handed, Between, Partial, Complete;
  }

  lemma SmoothStays(d0: Disk, b: Builder, d: Disk, c: Choice)
    requires Smooth(d0, b, d) && Ready(Next(b, d, c).b) && Advances(b, d, Next(b, d, c)) && HoldsLock(Next(b, d, c).b)
    ensures Smooth(d0, Next(b, d, c).b, Next(b, d, c).d)
  {
    hide Next, HasFiveFiles, Consistent, Kept, SameExcess, Sound, Small;
    SoundAfter(d0, b, d, c);
  }

  // ---- left alone, it publishes ----

  function Plain(ino: Ino): Choice {
    Choice(true, ino, 0, 0, 1, Other(""))
  }

  predicate OnlyMoves(turns: seq<Turn>, i: nat) {
    forall k :: 0 <= k < |turns| ==> turns[k].who == i
  }

  lemma {:induction false} SmoothPublishes(d0: Disk, s: System, i: nat) returns (turns: seq<Turn>)
    requires AllReady(s) && Inv(d0, s) && i < |s.builders| && Smooth(d0, s.builders[i], s.disk)
    ensures OnlyMoves(turns, i) && Run(s, turns).builders[i].pc == Done(Published)
    decreases Fuel(s.builders[i], s.disk)
  {
    hide Smooth, Inv, Next, HasFiveFiles, Fuel;
    var ino := Above(s.disk.nodes.Keys);
    var t := Turn(i, Plain(ino));
    SmoothStep(d0, s.builders[i], s.disk, t.choice);
    assert Sound(d0, s.builders[i], s.disk) && !s.builders[i].pc.Done? by { SmoothSound(d0, s.builders[i], s.disk); }
    OwnMoveFalls(d0, s.builders[i], s.disk, t.choice);
    StepInv(d0, s, t);
    var s1 := Step(s, t);
    var more: seq<Turn> := [];
    if HoldsLock(s1.builders[i]) {
      more := SmoothPublishes(d0, s1, i);
    }
    turns := [t] + more;
    assert turns[1..] == more;
  }

  /** From every reachable state in which a builder has not begun and nothing is in its
      way, there is a way for it alone to go on and publish. */
  lemma QuietBuilderPublishes(d0: Disk, bundles: seq<map<Name, Bytes>>, before: seq<Turn>, i: nat)
    returns (turns: seq<Turn>)
    requires Consistent(d0) && Startable(bundles) && i < |bundles|
    requires var s := After(d0, bundles, before);
             && s.builders[i].pc.Start? && Small(s.builders[i].files)
             && LockFile !in s.disk.top && StageDir !in s.disk.top && OutputDir !in s.disk.top
    ensures OnlyMoves(turns, i)
    ensures After(d0, bundles, before + turns).builders[i].pc == Done(Published)
  {
    hide Inv, Consistent, HasFiveFiles, Run, Launch, Smooth, Small;
    var s := After(d0, bundles, before);
    Reached(d0, bundles, before);
    var ino := Above(s.disk.nodes.Keys);
    var t := Turn(i, Plain(ino));
    StepInv(d0, s, t);
    StepInv(d0, Step(s, t), t);
    OpensSmoothly(d0, s, t);
    var s2 := Step(Step(s, t), t);
    var more := SmoothPublishes(d0, s2, i);
    turns := [t, t] + more;
    RunTwo(s, t, more);
    RunInTwoParts(Launch(d0, bundles), before, turns);
  }

  lemma RunTwo(s: System, t: Turn, more: seq<Turn>)
    requires AllReady(s)
    ensures Run(s, [t, t] + more) == Run(Step(Step(s, t), t), more)
  {
    hide Step, AllReady;
    assert ([t, t] + more)[1..] == [t] + more && ([t] + more)[1..] == more;
  }

  lemma OpensSmoothly(d0: Disk, s: System, t: Turn)
    requires AllReady(s) && Inv(d0, s) && t.who < |s.builders| && Kind(t.choice, s.disk)
    requires s.builders[t.who].pc.Start? && Small(s.builders[t.who].files)
    requires LockFile !in s.disk.top && StageDir !in s.disk.top && OutputDir !in s.disk.top
    requires Inv(d0, Step(Step(s, t), t))
    ensures var s2 := Step(Step(s, t), t); Smooth(d0, s2.builders[t.who], s2.disk)
  {
    hide Consistent, Kept, SameExcess, HasFiveFiles, AllApart, Accounted, Small, HolderInv;
    var s1 := Step(s, t);
    assert Sound(d0, s.builders[t.who], s.disk);
    assert s1.disk == s.disk && s1.builders[t.who].pc.Opening?;
    var s2 := Step(s1, t);
    assert Sound(d0, s2.builders[t.who], s2.disk);
  }
}
