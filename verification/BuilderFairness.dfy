/** Every fair run without faults publishes: whoever takes the lock first publishes, and
    everybody else is turned away or finds the result
    (tools/local-stack/build_submission_bundle.py:2162-2285). */
module BuilderFairness {
  import opened Basics
  import opened LocalDisk
  import opened BundleFiles
  import opened BundleState
  import opened BuilderSteps
  import opened ConcurrentBuilders
  import opened BuilderRuns
  import opened BuilderSafety
  import opened BuilderTermination
  import opened BuilderProgress

  /** No lock, no stage and no output. */
  predicate Untouched(d: Disk) {
    LockFile !in d.top && StageDir !in d.top && OutputDir !in d.top
  }

  // ---- what the others do ----

  predicate AboutToOpen(b: Builder) {
    b.pc.Start? || b.pc.Opening?
  }

  /** Has never held the lock. */
  predicate Outside(b: Builder) {
    AboutToOpen(b) || b.pc == Done(Refused)
  }

  /** Holds the lock after a bundle of `files` has been published, and changes nothing. */
  predicate Checking(b: Builder, files: map<Name, Bytes>) {
    && b.session == NO_SESSION && b.clean
    && (b.failed ==> !b.present && b.files != files) && (b.present ==> b.files == files)
    && match b.pc
       case FillingLock | CheckStage | CheckOutput | ReadingOutput => true
       case Clear(_) => b.failed
       case ReleaseCheck | ReleaseUnlink => b.failed || b.present
       case _ => false
  }

  predicate TurnedAway(b: Builder, files: map<Name, Bytes>) {
    || Outside(b) || Checking(b, files)
    || b.pc == Done(if b.files == files then AlreadyThere else Failed)
  }

  lemma OutsideWaits(b: Builder, d: Disk, c: Choice)
    requires Ready(b) && Outside(b) && LockFile in d.top
    ensures Next(b, d, c).d == d && Outside(Next(b, d, c).b)
  {
    hide HasFiveFiles;
  }

  lemma OutsideOpens(d0: Disk, b: Builder, d: Disk, c: Choice, files: map<Name, Bytes>)
    requires Sound(d0, b, d) && Outside(b) && Kind(c, d)
    ensures TurnedAway(Next(b, d, c).b, files)
  {
    hide HasFiveFiles, OutputMatches;
  }

  /** The lock file is the holder's own while it holds the lock. */
  lemma OwnLock(d0: Disk, b: Builder, d: Disk)
    requires Sound(d0, b, d) && HoldsLock(b)
    ensures LockFile in d.top && IsFile(d, Top(LockFile)) && Lookup(d, Top(LockFile)) == Some(b.lockIno)
    ensures b.lockIno in d.nodes
    ensures !b.pc.FillingLock? ==> b.lock.Some? && OwnedFile(d, Top(LockFile), b.lock.value, 1)
  {
    hide Forward, Cleaning, Alive, HasFiveFiles, OutsiderInv;
  }

  /** Once a bundle is there, whoever holds the lock compares it and lets go. */
  lemma CheckingGoesOn(d0: Disk, b: Builder, d: Disk, c: Choice, files: map<Name, Bytes>)
    requires Sound(d0, b, d) && Checking(b, files) && Kind(c, d)
    requires OutputMatches(d, files) && StageDir !in d.top
    ensures TurnedAway(Next(b, d, c).b, files)
  {
    hide HolderInv, OutsiderInv, HasFiveFiles, OwnedFile, Identity, Append, RemoveLink, Lookup, Sound, Kept,
         WellFormedOutput, Stored;
    assert Ready(b) by { SoundReady(d0, b, d); }
    OwnLock(d0, b, d);
    MatchesThese(d, files, b.files);
  }

  lemma SoundReady(d0: Disk, b: Builder, d: Disk)
    requires Sound(d0, b, d)
    ensures Ready(b)
  {
  }

  lemma MatchesThese(d: Disk, files: map<Name, Bytes>, other: map<Name, Bytes>)
    requires OutputMatches(d, files)
    ensures OutputMatches(d, other) <==> other == files
    ensures OutputDir in d.top
  {
  }

  // ---- the three phases of a run ----

  ghost predicate NobodyYet(s: System) {
    Untouched(s.disk) && forall i :: 0 <= i < |s.builders| ==> AboutToOpen(s.builders[i])
  }

  ghost predicate Working(d0: Disk, s: System, w: nat) {
    && w < |s.builders| && Smooth(d0, s.builders[w], s.disk)
    && forall i :: 0 <= i < |s.builders| && i != w ==> Outside(s.builders[i])
  }

  ghost predicate Decided(s: System, w: nat) {
    && w < |s.builders| && s.builders[w].pc == Done(Published)
    && forall i :: 0 <= i < |s.builders| && i != w ==> TurnedAway(s.builders[i], s.builders[w].files)
  }

  ghost predicate OnCourse(d0: Disk, s: System) {
    NobodyYet(s) || (exists w :: Working(d0, s, w)) || (exists w :: Decided(s, w))
  }

  predicate AllSmall(s: System) {
    forall i :: 0 <= i < |s.builders| ==> Small(s.builders[i].files)
  }

  lemma StepFiles(s: System, t: Turn)
    requires AllReady(s)
    ensures forall i :: 0 <= i < |s.builders| ==> Step(s, t).builders[i].files == s.builders[i].files
  {
    hide HasFiveFiles, Next, Follows;
    if t.who < |s.builders| {
      NextRegular(s.builders[t.who], s.disk, t.choice);
    }
  }

  /** The first to open takes the lock, with nothing in its way. */
  lemma FirstTurn(d0: Disk, s: System, t: Turn)
    requires AllReady(s) && Inv(d0, s) && NobodyYet(s) && t.who < |s.builders| && Kind(t.choice, s.disk) && AllSmall(s)
    ensures NobodyYet(Step(s, t)) || Working(d0, Step(s, t), t.who)
  {
    hide Consistent, Kept, SameExcess, HasFiveFiles, AllApart, Accounted, Small, HolderInv;
    StepInv(d0, s, t);
    var b, s' := s.builders[t.who], Step(s, t);
    assert Sound(d0, b, s.disk) && Sound(d0, s'.builders[t.who], s'.disk);
    if b.pc.Opening? {
      assert Smooth(d0, s'.builders[t.who], s'.disk);
    }
  }

  lemma WorkingTurn(d0: Disk, s: System, t: Turn, w: nat)
    requires AllReady(s) && Inv(d0, s) && Working(d0, s, w) && t.who < |s.builders| && Kind(t.choice, s.disk)
    ensures Working(d0, Step(s, t), w) || Decided(Step(s, t), w)
  {
    hide Inv, Smooth, Kind, HasFiveFiles, Next, Advances, Checking;
    var b := s.builders[w];
    SmoothSound(d0, b, s.disk);
    OwnLock(d0, b, s.disk);
    if t.who == w {
      SmoothStep(d0, b, s.disk, t.choice);
      EndsPublished(b, s.disk, t.choice);
    } else {
      OutsideWaits(s.builders[t.who], s.disk, t.choice);
    }
  }

  lemma EndsPublished(b: Builder, d: Disk, c: Choice)
    requires Ready(b) && Ready(Next(b, d, c).b) && Advances(b, d, Next(b, d, c))
    ensures !HoldsLock(Next(b, d, c).b) ==> Next(b, d, c).b.pc == Done(Published)
  {
    hide HasFiveFiles, Next;
  }

  /** After a publication nobody has a staging directory, and the output is the winner's. */
  lemma DecidedDisk(d0: Disk, s: System, w: nat)
    requires Inv(d0, s) && Decided(s, w) && StageDir !in d0.top
    ensures StageDir !in s.disk.top && OutputMatches(s.disk, s.builders[w].files)
  {
    hide Consistent, Kept, SameExcess, AllApart, HasFiveFiles, OutputMatches, HolderInv;
    assert Sound(d0, s.builders[w], s.disk);
    assert !MadeBySomeone(s.builders, StageDir);
  }

  lemma TurnedAwayStep(d0: Disk, b: Builder, d: Disk, c: Choice, files: map<Name, Bytes>)
    requires Sound(d0, b, d) && TurnedAway(b, files) && Kind(c, d)
    requires OutputMatches(d, files) && StageDir !in d.top
    ensures Ready(b) && TurnedAway(Next(b, d, c).b, files)
  {
    hide Sound, Checking, Kind, OutputMatches, HasFiveFiles, Outside;
    SoundReady(d0, b, d);
    if Checking(b, files) {
      CheckingGoesOn(d0, b, d, c, files);
    } else if Outside(b) {
      OutsideOpens(d0, b, d, c, files);
    }
  }

  lemma DecidedTurn(d0: Disk, s: System, t: Turn, w: nat)
    requires AllReady(s) && Inv(d0, s) && Decided(s, w) && t.who < |s.builders| && Kind(t.choice, s.disk)
    requires StageDir !in d0.top
    ensures Decided(Step(s, t), w)
  {
    hide Inv, Kind, HasFiveFiles, OutputMatches, TurnedAway, Sound;
    if t.who == w {
      assert Step(s, t).builders == s.builders;
    } else {
      DecidedDisk(d0, s, w);
      InvSound(d0, s, t.who);
      TurnedAwayStep(d0, s.builders[t.who], s.disk, t.choice, s.builders[w].files);
    }
  }

  lemma CourseStep(d0: Disk, s: System, t: Turn)
    requires AllReady(s) && Inv(d0, s) && OnCourse(d0, s) && AllSmall(s) && Untouched(d0) && Kind(t.choice, s.disk)
    ensures OnCourse(d0, Step(s, t))
  {
    hide Inv, Kind, HasFiveFiles, AllReady, Step, NobodyYet, Working, Decided, AllSmall;
    if t.who >= |s.builders| {
      assert Step(s, t) == s by { NoSuchBuilder(s, t); }
    } else if NobodyYet(s) {
      FirstTurn(d0, s, t);
    } else if w :| Working(d0, s, w) {
      WorkingTurn(d0, s, t, w);
    } else {
      var w :| Decided(s, w);
      DecidedTurn(d0, s, t, w);
    }
  }

  lemma NoSuchBuilder(s: System, t: Turn)
    requires AllReady(s) && t.who >= |s.builders|
    ensures Step(s, t) == s
  {
  }

  // ---- whole runs ----

  /** No call fails in this run. */
  ghost predicate Faultless(s: System, turns: seq<Turn>)
    requires AllReady(s)
    decreases |turns|
  {
    turns == [] || (Kind(turns[0].choice, s.disk) && Faultless(Step(s, turns[0]), turns[1..]))
  }

  lemma {:induction false} CourseKept(d0: Disk, s: System, turns: seq<Turn>)
    requires AllReady(s) && Inv(d0, s) && OnCourse(d0, s) && AllSmall(s) && Untouched(d0) && Faultless(s, turns)
    ensures OnCourse(d0, Run(s, turns))
    ensures forall i :: 0 <= i < |s.builders| ==> Run(s, turns).builders[i].files == s.builders[i].files
    decreases |turns|
  {
    hide Inv, Kind, Step, OnCourse, Small;
    if turns != [] {
      CourseStep(d0, s, turns[0]);
      StepInv(d0, s, turns[0]);
      StepFiles(s, turns[0]);
      CourseKept(d0, Step(s, turns[0]), turns[1..]);
    }
  }

  /** What a builder that was not first reports. */
  function Answer(files: map<Name, Bytes>, published: map<Name, Bytes>): Outcome {
    if files == published then AlreadyThere else Failed
  }

  lemma StoppedOnCourse(d0: Disk, s: System) returns (w: nat)
    requires OnCourse(d0, s) && s.builders != [] && forall i :: 0 <= i < |s.builders| ==> s.builders[i].pc.Done?
    ensures Decided(s, w)
    ensures forall i :: 0 <= i < |s.builders| && i != w ==>
              s.builders[i].pc == Done(Refused)
                  || s.builders[i].pc == Done(Answer(s.builders[i].files, s.builders[w].files))
  {
    hide Smooth, HasFiveFiles;
    assert !NobodyYet(s) by { assert s.builders[0].pc.Done?; }
    forall v: nat | Working(d0, s, v) ensures false {
      SmoothSound(d0, s.builders[v], s.disk);
    }
    w :| Decided(s, w);
  }

  /** From a `.local` without lock, stage or output, in every run of one or more builders in
      which no call fails and each builder has had its turns: exactly one builder has
      published and `.local` is what it was plus that bundle; every other was refused the
      lock, found the same bundle, or failed because its own differs. */
  lemma FairRunPublishes(d0: Disk, bundles: seq<map<Name, Bytes>>, turns: seq<Turn>) returns (w: nat)
    requires Consistent(d0) && Startable(bundles) && bundles != [] && Untouched(d0)
    requires forall i :: 0 <= i < |bundles| ==> Small(bundles[i])
    requires Faultless(Launch(d0, bundles), turns)
    requires forall i :: 0 <= i < |bundles| ==> OwnTurns(turns, i) >= Budget(bundles[i])
    ensures var s := After(d0, bundles, turns);
            && w < |bundles| && s.builders[w].pc == Done(Published)
            && OnlyBundleAdded(d0, s.disk, bundles[w])
            && forall i :: 0 <= i < |bundles| && i != w ==>
                 s.builders[i].pc == Done(Refused) || s.builders[i].pc == Done(Answer(bundles[i], bundles[w]))
  {
    hide Consistent, HasFiveFiles, Inv, Budget, OnlyBundleAdded, Run, Small, Faultless, OutputMatches;
    var start, s := Launch(d0, bundles), After(d0, bundles, turns);
    LaunchInv(d0, bundles);
    forall i | 0 <= i < |bundles| ensures start.builders[i].files == bundles[i] && start.builders[i].pc.Start? {
      assert start.builders[i] == Idle(bundles[i]);
    }
    assert NobodyYet(start);
    CourseKept(d0, start, turns);
    forall i | 0 <= i < |bundles| ensures s.builders[i].pc.Done? {
      BuildersStop(d0, bundles, turns, i);
    }
    w := StoppedOnCourse(d0, s);
    AllSettled(s);
    OnePublished(d0, bundles, turns, w);
  }
}
