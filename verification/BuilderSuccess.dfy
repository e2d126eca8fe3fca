/** What a builder's success says about its calls
    (tools/local-stack/build_submission_bundle.py:2162-2285). */
module BuilderSuccess {
  import opened Basics
  import opened LocalDisk
  import opened BundleFiles
  import opened BundleState
  import opened BuilderSteps
  import opened ConcurrentBuilders
  import opened BuilderRuns
  import opened BuilderSafety

  /** The next step makes a call, the source check among them, that may fail. */
  predicate MakesCall(b: Builder) {
    match b.pc
    case Start | CheckStage | CheckOutput | Done(_) => false
    case Clear(dir) => DirOf(b.session, dir).Some?
    case _ => true
  }

  /** The call of this step fails; at the very end that is also the last fsync. */
  predicate CallFails(b: Builder, c: Choice) {
    MakesCall(b) && (!c.ok || (b.pc.ReleaseUnlink? && c.amount == 0))
  }

  /** Cannot report success any more. */
  predicate Spoilt(b: Builder) {
    if b.pc.Done? then b.pc.outcome != Published && b.pc.outcome != AlreadyThere else b.failed || !b.clean
  }

  lemma FailureSpoils(b: Builder, d: Disk, c: Choice)
    requires Ready(b) && CallFails(b, c)
    ensures Spoilt(Next(b, d, c).b) && (!c.ok ==> Next(b, d, c).d == d)
  {
    hide HasFiveFiles, FileName, OutputMatches, OwnedFile, Lookup;
  }

  /** A step keeps a failure and a leftover on record, marks the source as checked only by
      passing the check, and ends a run without success or not at all. */
  predicate KeepsFlags(b: Builder, c: Choice, b': Builder) {
    && (b.failed ==> b'.failed) && (!b.clean ==> !b'.clean)
    && (b'.sourceChecked && !b.sourceChecked ==> b.pc.SourceGate? && c.ok)
    && (b'.pc.Done? ==> b'.pc.outcome == Refused || b'.pc.outcome == LockAbandoned)
  }

  lemma EarlyFlags(b: Builder, d: Disk, c: Choice)
    requires Ready(b) && (b.pc.Start? || b.pc.Opening? || b.pc.FillingLock? || b.pc.CheckStage? || b.pc.CheckOutput?)
    ensures KeepsFlags(b, c, Next(b, d, c).b)
  {
    hide HasFiveFiles, FileName, OutputMatches, OwnedFile, Readable, CreateFile, RemoveLink, Linked, Append, Fill,
         Identity, Lookup;
  }

  lemma StagingFlags(b: Builder, d: Disk, c: Choice)
    requires Ready(b)
    requires (b.pc.ReadingOutput? || b.pc.MakingStage? || b.pc.Staging? || b.pc.Filling? || b.pc.MakingOutput?
        || b.pc.SourceGate?)
    ensures KeepsFlags(b, c, Next(b, d, c).b)
  {
    hide HasFiveFiles, FileName, OutputMatches, OwnedFile, Readable, CreateFile, RemoveLink, Linked, Append, Fill,
         Identity, Lookup;
  }

  lemma LinkingFlags(b: Builder, d: Disk, c: Choice)
    requires Ready(b)
    requires (b.pc.Linking? || b.pc.Unstaging? || b.pc.UnstageUnlink? || b.pc.ReadBack? || b.pc.RemovingStage?
        || b.pc.Verifying?)
    ensures KeepsFlags(b, c, Next(b, d, c).b)
  {
    hide HasFiveFiles, FileName, OutputMatches, OwnedFile, Readable, CreateFile, RemoveLink, Linked, Append, Fill,
         Identity, Lookup;
  }

  lemma CleanupFlags(b: Builder, d: Disk, c: Choice)
    requires Ready(b) && (b.pc.Clear? || b.pc.Pick? || b.pc.Drop?)
    ensures KeepsFlags(b, c, Next(b, d, c).b)
  {
    hide HasFiveFiles, FileName, OutputMatches, OwnedFile, Readable, CreateFile, RemoveLink, Linked, Append, Fill,
         Identity, Lookup;
  }

  lemma StepFlags(b: Builder, d: Disk, c: Choice)
    requires Ready(b) && !b.pc.Done? && !b.pc.ReleaseCheck? && !b.pc.ReleaseUnlink?
    ensures KeepsFlags(b, c, Next(b, d, c).b)
  {
    hide HasFiveFiles, Next, KeepsFlags;
    match b.pc
    case Start | Opening | FillingLock | CheckStage | CheckOutput => EarlyFlags(b, d, c);
    case ReadingOutput | MakingStage | Staging(_) | Filling(_) | MakingOutput | SourceGate => StagingFlags(b, d, c);
    case Linking(_) | Unstaging(_) | UnstageUnlink(_) | ReadBack(_) | RemovingStage | Verifying =>
      LinkingFlags(b, d, c);
    case Clear(_) | Pick(_) | Drop(_, _) => CleanupFlags(b, d, c);
  }

  lemma SpoiltStays(b: Builder, d: Disk, c: Choice)
    requires Ready(b) && Spoilt(b)
    ensures Spoilt(Next(b, d, c).b)
  {
    hide HasFiveFiles, RemoveLink, OwnedFile, Lookup;
    if !b.pc.Done? && !b.pc.ReleaseCheck? && !b.pc.ReleaseUnlink? {
      StepFlags(b, d, c);
    }
  }

  lemma {:induction false} SpoiltForGood(s: System, turns: seq<Turn>, i: nat)
    requires AllReady(s) && i < |s.builders| && Spoilt(s.builders[i])
    ensures Spoilt(Run(s, turns).builders[i])
    decreases |turns|
  {
    hide Spoilt, Next, HasFiveFiles;
    if turns != [] {
      if turns[0].who == i {
        SpoiltStays(s.builders[i], s.disk, turns[0].choice);
      }
      SpoiltForGood(Step(s, turns[0]), turns[1..], i);
    }
  }

  /** A builder that succeeds has met no failing call on the way: whatever the schedule, if
      some call of its own fails, it never reports success. */
  lemma SuccessHadNoFailure(d0: Disk, bundles: seq<map<Name, Bytes>>, before: seq<Turn>, t: Turn, later: seq<Turn>)
    requires Startable(bundles) && t.who < |bundles|
    requires CallFails(After(d0, bundles, before).builders[t.who], t.choice)
    ensures var b := After(d0, bundles, before + [t] + later).builders[t.who];
            b.pc != Done(Published) && b.pc != Done(AlreadyThere)
  {
    hide Spoilt, CallFails, Next, HasFiveFiles, Run, Launch, InRange;
    var s := After(d0, bundles, before);
    FailureSpoils(s.builders[t.who], s.disk, t.choice);
    assert before + [t] + later == before + ([t] + later);
    RunInTwoParts(Launch(d0, bundles), before, [t] + later);
    RunOne(s, t, later);
    SpoiltForGood(Step(s, t), later, t.who);
    NoSuccess(Run(Step(s, t), later).builders[t.who]);
  }

  lemma RunOne(s: System, t: Turn, later: seq<Turn>)
    requires AllReady(s)
    ensures Run(s, [t] + later) == Run(Step(s, t), later)
    ensures t.who < |s.builders| ==> Step(s, t).builders[t.who] == Next(s.builders[t.who], s.disk, t.choice).b
  {
    hide Next, HasFiveFiles;
    assert ([t] + later)[1..] == later;
  }

  lemma NoSuccess(b: Builder)
    requires Spoilt(b)
    ensures b.pc != Done(Published) && b.pc != Done(AlreadyThere)
  {
  }

  // ---- a staging directory that was there before ----

  /** Has not looked for the staging directory yet, or will not succeed. */
  predicate NotPast(b: Builder) {
    b.pc.Start? || b.pc.Opening? || b.pc.FillingLock? || b.pc.CheckStage? || Spoilt(b)
  }

  lemma NotPastStays(b: Builder, d: Disk, c: Choice)
    requires Ready(b) && NotPast(b) && StageDir in d.top
    ensures NotPast(Next(b, d, c).b)
  {
    hide HasFiveFiles, OwnedFile, RemoveLink, Lookup, Fill, CreateFile, Identity;
    if Spoilt(b) {
      SpoiltStays(b, d, c);
    }
  }

  /** On a `.local` that already has a staging directory no builder ever succeeds, not even
      one whose bundle is there. */
  lemma {:induction false} EarlierStageBlocks(d0: Disk, bundles: seq<map<Name, Bytes>>, turns: seq<Turn>, i: nat)
    requires Consistent(d0) && Startable(bundles) && i < |bundles| && StageDir in d0.top
    ensures NotPast(After(d0, bundles, turns).builders[i])
    ensures var b := After(d0, bundles, turns).builders[i]; b.pc != Done(Published) && b.pc != Done(AlreadyThere)
    decreases |turns|
  {
    hide Next, HasFiveFiles, Run, InRange, Consistent, Sound, SameExcess, Spoilt;
    if turns == [] {
      StartNotPast(d0, bundles, i);
    } else {
      var n := |turns| - 1;
      var init, t := turns[..n], turns[n];
      assert turns == init + [t];
      EarlierStageBlocks(d0, bundles, init, i);
      ReachedBuilder(d0, bundles, init, i);
      RunInTwoParts(Launch(d0, bundles), init, [t]);
      var s := After(d0, bundles, init);
      RunOne(s, t, []);
      assert [t] + [] == [t] && Run(Step(s, t), []) == Step(s, t) by { RunNothing(Step(s, t)); }
      if t.who != i {
        OthersStay(s, t, i);
      } else {
        NotPastStays(s.builders[i], s.disk, t.choice);
      }
    }
    NoSuccessYet(After(d0, bundles, turns).builders[i]);
  }

  lemma StartNotPast(d0: Disk, bundles: seq<map<Name, Bytes>>, i: nat)
    requires Startable(bundles) && i < |bundles|
    ensures NotPast(After(d0, bundles, []).builders[i])
  {
    hide HasFiveFiles;
    assert Launch(d0, bundles).builders[i] == Idle(bundles[i]);
  }

  lemma NoSuccessYet(b: Builder)
    requires NotPast(b)
    ensures b.pc != Done(Published) && b.pc != Done(AlreadyThere)
  {
  }

  // ---- cleaning up ----

  /** A builder that is about to remove a file from one of its directories has every entry
      of that directory on record, the file included. */
  lemma RemovesOnlyRecorded(d0: Disk, bundles: seq<map<Name, Bytes>>, turns: seq<Turn>, i: nat)
    requires Consistent(d0) && Startable(bundles) && i < |bundles|
    ensures var s := After(d0, bundles, turns);
            var b := s.builders[i];
            b.pc.Drop? ==>
              && b.failed && b.pc.dir in s.disk.top && s.disk.top[b.pc.dir].DirAt?
              && d0.nodes.Keys !! ChildInos(s.disk, b.pc.dir)
              && var children := s.disk.top[b.pc.dir].children;
                 b.pc.name in children && children.Keys <= FilesOf(b.session, b.pc.dir).Keys
  {
    hide Consistent, HasFiveFiles, After, Kept, SameExcess;
    ReachedBuilder(d0, bundles, turns, i);
  }

  // ---- the source check ----

  lemma CheckedByGate(b: Builder, d: Disk, c: Choice)
    requires Ready(b) && Next(b, d, c).b.sourceChecked && !b.sourceChecked
    ensures b.pc.SourceGate? && c.ok
  {
    hide HasFiveFiles, OwnedFile, RemoveLink, Lookup;
    if !b.pc.Done? && !b.pc.ReleaseCheck? && !b.pc.ReleaseUnlink? {
      StepFlags(b, d, c);
    }
  }

  /** A builder that counts the source as checked has had a turn at the source check, and
      in it the check passed. */
  lemma {:induction false} GateWasPassed(d0: Disk, bundles: seq<map<Name, Bytes>>, turns: seq<Turn>, i: nat)
    requires Startable(bundles) && i < |bundles|
    ensures After(d0, bundles, turns).builders[i].sourceChecked ==>
              exists k :: 0 <= k < |turns| && turns[k].who == i && turns[k].choice.ok
                && After(d0, bundles, turns[..k]).builders[i].pc.SourceGate?
    decreases |turns|
  {
    hide Next, HasFiveFiles, Run, InRange;
    if turns == [] {
      StartUnchecked(d0, bundles, i);
    } else {
      var n := |turns| - 1;
      var init, t := turns[..n], turns[n];
      assert turns == init + [t];
      GateWasPassed(d0, bundles, init, i);
      RunInTwoParts(Launch(d0, bundles), init, [t]);
      var s := After(d0, bundles, init);
      RunOne(s, t, []);
      assert [t] + [] == [t] && Run(Step(s, t), []) == Step(s, t) by { RunNothing(Step(s, t)); }
      if t.who != i {
        OthersStay(s, t, i);
      }
      if After(d0, bundles, init).builders[i].sourceChecked {
        var k :| 0 <= k < n && init[k].who == i && init[k].choice.ok
            && After(d0, bundles, init[..k]).builders[i].pc.SourceGate?;
        assert init[..k] == turns[..k] && turns[k] == init[k];
      } else if After(d0, bundles, turns).builders[i].sourceChecked {
        CheckedByGate(s.builders[i], s.disk, t.choice);
        assert turns[..n] == init;
      }
    }
  }

  lemma RunNothing(s: System)
    requires AllReady(s)
    ensures Run(s, []) == s
  {
  }

  lemma StartUnchecked(d0: Disk, bundles: seq<map<Name, Bytes>>, i: nat)
    requires Startable(bundles) && i < |bundles|
    ensures !After(d0, bundles, []).builders[i].sourceChecked
  {
    hide HasFiveFiles;
    assert Launch(d0, bundles).builders[i] == Idle(bundles[i]);
  }

  lemma OthersStay(s: System, t: Turn, i: nat)
    requires AllReady(s) && i < |s.builders| && t.who != i
    ensures Step(s, t).builders[i] == s.builders[i]
  {
    hide Next, HasFiveFiles;
  }
}
