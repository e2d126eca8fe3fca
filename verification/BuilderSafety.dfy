/** What every run of concurrent builders guarantees
    (tools/local-stack/build_submission_bundle.py:2104-2285). A run is an initial
    `.local`, the bundle each builder has rendered, and any sequence of turns; a
    builder that crashes is one that gets no more turns. */
module BuilderSafety {
  import opened Basics
  import opened LocalDisk
  import opened BundleFiles
  import opened BundleState
  import opened BuilderSteps
  import opened ConcurrentBuilders
  import opened BuilderRuns

  predicate Startable(bundles: seq<map<Name, Bytes>>) {
    forall i :: 0 <= i < |bundles| ==> HasFiveFiles(bundles[i])
  }

  function After(d0: Disk, bundles: seq<map<Name, Bytes>>, turns: seq<Turn>): (s: System)
    requires Startable(bundles)
    ensures AllReady(s) && |s.builders| == |bundles|
  {
    Run(Launch(d0, bundles), turns)
  }

  lemma Reached(d0: Disk, bundles: seq<map<Name, Bytes>>, turns: seq<Turn>)
    requires Consistent(d0) && Startable(bundles)
    ensures Inv(d0, After(d0, bundles, turns))
  {
    hide Consistent, HasFiveFiles, Launch, Run, Inv;
    LaunchInv(d0, bundles);
    RunInv(d0, Launch(d0, bundles), turns);
  }

  lemma ReachedBuilder(d0: Disk, bundles: seq<map<Name, Bytes>>, turns: seq<Turn>, i: nat)
    requires Consistent(d0) && Startable(bundles) && i < |bundles|
    ensures var s := After(d0, bundles, turns);
            Consistent(s.disk) && Kept(d0, s.disk) && SameExcess(d0, s.disk) && Sound(d0, s.builders[i], s.disk)
  {
    hide Consistent, HasFiveFiles, After, Sound, Apart, Kept, SameExcess, Accounted;
    Reached(d0, bundles, turns);
  }

  lemma ReachedPair(d0: Disk, bundles: seq<map<Name, Bytes>>, turns: seq<Turn>, i: nat, j: nat)
    requires Consistent(d0) && Startable(bundles) && i < |bundles| && j < |bundles| && i != j
    ensures var s := After(d0, bundles, turns); Apart(s.builders[i], s.builders[j])
  {
    hide Consistent, HasFiveFiles, After, Sound, Apart, Kept, SameExcess, Accounted;
    Reached(d0, bundles, turns);
  }

  // ---- mutual exclusion ----

  /** At most one builder is between taking and releasing the lock, and the lock file
      that is there is the one it created. */
  lemma MutualExclusion(d0: Disk, bundles: seq<map<Name, Bytes>>, turns: seq<Turn>, i: nat, j: nat)
    requires Consistent(d0) && Startable(bundles) && i < |bundles| && j < |bundles|
    ensures var s := After(d0, bundles, turns);
            HoldsLock(s.builders[i]) ==>
              && LockFile !in d0.top
              && Lookup(s.disk, Top(LockFile)) == Some(s.builders[i].lockIno)
                  && s.builders[i].lockIno in s.builders[i].own
              && (HoldsLock(s.builders[j]) ==> i == j)
  {
    hide Consistent, HasFiveFiles, After, Kept, SameExcess, Forward, Cleaning;
    ReachedBuilder(d0, bundles, turns, i);
    if i != j {
      ReachedPair(d0, bundles, turns, i, j);
    }
  }

  // ---- nothing foreign is touched ----

  /** `d'` still has everything of `d` that is not in `own`, and the recorded directories of `s`. */
  ghost predicate Undisturbed(d: Disk, d': Disk, own: set<Ino>, s: Session) {
    && (forall p :: Lookup(d, p).Some? && Lookup(d, p).value !in own ==> Lookup(d', p) == Lookup(d, p))
    && (forall k :: k in d.nodes && k !in own ==> k in d'.nodes && d'.nodes[k] == d.nodes[k])
    && Placed(s, d')
  }

  lemma HolderOwns(d0: Disk, b: Builder, d: Disk, p: Path)
    requires HasFiveFiles(b.files) && HolderInv(d0, b, d)
    requires Lookup(d, p).Some? && Lookup(d, p).value !in b.own
    ensures p.Top? ==>
            p.name != LockFile && (p.name == StageDir ==> b.session.stage.None?)
            && (p.name == OutputDir ==> b.session.output.None?)
    ensures p.Under? ==>
            p.dir != LockFile && (p.dir == StageDir ==> b.session.stage.None?)
            && (p.dir == OutputDir ==> b.session.output.None?)
  {
    hide Forward, Cleaning;
    if p.Under? {
      assert Lookup(d, p).value in ChildInos(d, p.dir);
    }
  }

  /** No turn removes, rebinds or edits a file that the moving builder did not itself
      create: in particular not another builder's lock, staged or published files, and
      not anything that was in `.local` at the start. Directories made by others stay. */
  lemma ForeignUntouched(d0: Disk, bundles: seq<map<Name, Bytes>>, turns: seq<Turn>, t: Turn, j: nat)
    requires Consistent(d0) && Startable(bundles) && t.who < |bundles| && j < |bundles| && j != t.who
    ensures var s := After(d0, bundles, turns);
            var s' := Step(s, t);
            && s'.builders[j] == s.builders[j]
            && s.builders[j].own !! s.builders[t.who].own
            && d0.nodes.Keys !! s.builders[t.who].own
            && Undisturbed(s.disk, s'.disk, s.builders[t.who].own, s.builders[j].session)
  {
    hide Consistent, HasFiveFiles, After, Kept, SameExcess, Next, HolderInv, OutsiderInv, Excess, Regular;
    var s := After(d0, bundles, turns);
    var a, b, d := s.builders[j], s.builders[t.who], s.disk;
    var next := Next(b, d, t.choice);
    ReachedBuilder(d0, bundles, turns, t.who);
    ReachedBuilder(d0, bundles, turns, j);
    ReachedPair(d0, bundles, turns, j, t.who);
    SoundAfter(d0, b, d, t.choice);
    OthersSound(d0, a, b, d, t.choice);
    SoundPlaced(d0, a, next.d);
    forall p | Lookup(d, p).Some? && Lookup(d, p).value !in b.own ensures Lookup(next.d, p) == Lookup(d, p) {
      LookupKept(d0, b, d, t.choice, p);
    }
  }

  lemma SoundPlaced(d0: Disk, b: Builder, d: Disk)
    requires Sound(d0, b, d)
    ensures Placed(b.session, d)
  {
    hide Forward, Cleaning, HasFiveFiles;
  }

  lemma LookupKept(d0: Disk, b: Builder, d: Disk, c: Choice, p: Path)
    requires Consistent(d) && Kept(d0, d) && Sound(d0, b, d)
    requires Lookup(d, p).Some? && Lookup(d, p).value !in b.own
    ensures Lookup(Next(b, d, c).d, p) == Lookup(d, p)
  {
    hide Consistent, HasFiveFiles, Kept, Next, HolderInv, SameExcess, OutputMatches;
    var d' := Next(b, d, c).d;
    if HoldsLock(b) {
      HolderStep(d0, b, d, c);
      HolderOwns(d0, b, d, p);
    } else {
      OutsiderStep(d0, b, d, c);
    }
    var n := if p.Top? then p.name else p.dir;
    assert d' == d || SameAt(d, d', n);
  }

  // ---- all or nothing, for all builders together ----

  /** `d` is `d0` plus a complete output directory with these files, and nothing else. */
  ghost predicate OnlyBundleAdded(d0: Disk, d: Disk, files: map<Name, Bytes>) {
    && OutputDir !in d0.top
    && OutputMatches(d, files)
    && d.top - {OutputDir} == d0.top
    && d.nodes - ChildInos(d, OutputDir) == d0.nodes
  }

  /** Files that were there at the start have the names they had at the start. */
  lemma NoNewNames(d0: Disk, d: Disk, p: Path)
    requires Consistent(d0) && Kept(d0, d) && SameExcess(d0, d)
    requires Lookup(d, p).Some? && Lookup(d, p).value in d0.nodes
    ensures Lookup(d0, p) == Lookup(d, p)
  {
    var ino := Lookup(d, p).value;
    assert Excess(d0, ino) == Excess(d, ino);
    forall q | q in Names(d0, ino) ensures q in Names(d, ino) {
      NamesAre(d0, ino, q);
      NamesAre(d, ino, q);
    }
    if p !in Names(d0, ino) {
      NamesAre(d, ino, p);
      assert Names(d0, ino) + {p} <= Names(d, ino);
      CardinalityMonotone(Names(d0, ino) + {p}, Names(d, ino));
    }
    NamesAre(d0, ino, p);
  }

  /** Every builder has stopped, and none reported leftovers. */
  ghost predicate Settled(builders: seq<Builder>) {
    forall i :: 0 <= i < |builders| ==> LeftNothing(builders[i]) || builders[i].pc == Done(Published)
  }

  ghost predicate SomePublished(builders: seq<Builder>) {
    exists i :: 0 <= i < |builders| && builders[i].pc == Done(Published)
  }

  lemma SettledNodes(d0: Disk, s: System, k: Ino)
    requires Inv(d0, s) && Settled(s.builders) && k in s.disk.nodes && k !in d0.nodes
    ensures SomePublished(s.builders) && k in ChildInos(s.disk, OutputDir)
  {
    hide Consistent, Kept, SameExcess, HasFiveFiles, OutputMatches, ChildInos;
    assert Claimed(s.builders, k);
    var i :| 0 <= i < |s.builders| && k in s.builders[i].own;
    assert Sound(d0, s.builders[i], s.disk);
  }

  /** A lock file that was not there at the start belongs to nobody who has stopped. */
  lemma NoLockLeft(d0: Disk, s: System)
    requires Consistent(d0) && Inv(d0, s) && Settled(s.builders)
    ensures LockFile in s.disk.top ==> LockFile in d0.top
  {
    hide HasFiveFiles, OutputMatches, ChildInos, SameExcess, Consistent, AllSound, AllApart, Settled, SomePublished;
    if LockFile in s.disk.top && LockFile !in d0.top {
      NoDangling(s.disk, Top(LockFile));
      var ino := Lookup(s.disk, Top(LockFile)).value;
      if ino in d0.nodes {
        NoNewNames(d0, s.disk, Top(LockFile));
      } else {
        SettledNodes(d0, s, ino);
        PublishedIsSingle(d0, s, ino);
      }
    }
  }

  lemma SettledNames(d0: Disk, s: System, n: Name)
    requires Consistent(d0) && Inv(d0, s) && Settled(s.builders)
    requires n in s.disk.top && n !in d0.top
    ensures n == OutputDir && SomePublished(s.builders)
  {
    hide HasFiveFiles, OutputMatches, ChildInos, SameExcess, Consistent;
    if n == LockFile {
      NoLockLeft(d0, s);
    } else {
      assert SameAt(d0, s.disk, n) || MadeBySomeone(s.builders, n);
      var i :| 0 <= i < |s.builders| && DirOf(s.builders[i].session, n).Some?;
      assert Sound(d0, s.builders[i], s.disk);
    }
  }

  /** The lock is no second name of a published file. */
  lemma PublishedIsSingle(d0: Disk, s: System, ino: Ino)
    requires Inv(d0, s) && SomePublished(s.builders) && ino in ChildInos(s.disk, OutputDir)
    ensures Lookup(s.disk, Top(LockFile)) != Some(ino)
  {
    hide Consistent, Kept, SameExcess, HasFiveFiles;
    var i :| 0 <= i < |s.builders| && s.builders[i].pc == Done(Published);
    assert Sound(d0, s.builders[i], s.disk);
    assert WellFormedOutput(s.disk);
    var n :| n in s.disk.top[OutputDir].children && s.disk.top[OutputDir].children[n] == ino;
    assert Readable(s.disk, Under(OutputDir, n), OUTPUT_FILE_MAX_BYTES);
    if Lookup(s.disk, Top(LockFile)) == Some(ino) {
      SingleName(s.disk, Under(OutputDir, n), Top(LockFile));
    }
  }

  /** Nobody published: `.local` is exactly what it was. */
  lemma NothingPublished(d0: Disk, bundles: seq<map<Name, Bytes>>, turns: seq<Turn>)
    requires Consistent(d0) && Startable(bundles)
    requires Settled(After(d0, bundles, turns).builders) && !SomePublished(After(d0, bundles, turns).builders)
    ensures After(d0, bundles, turns).disk == d0
  {
    hide HasFiveFiles, OutputMatches, After, Consistent, SameExcess, AllSound, AllApart, Accounted, Settled;
    var s := After(d0, bundles, turns);
    Reached(d0, bundles, turns);
    forall n | n in s.disk.top ensures n in d0.top {
      if n !in d0.top {
        SettledNames(d0, s, n);
      }
    }
    forall k | k in s.disk.nodes ensures k in d0.nodes {
      if k !in d0.nodes {
        SettledNodes(d0, s, k);
      }
    }
    assert s.disk.top == d0.top && s.disk.nodes == d0.nodes;
  }

  /** Somebody published: one builder did, and `.local` is what it was plus exactly
      that builder's five files. */
  lemma OnePublished(d0: Disk, bundles: seq<map<Name, Bytes>>, turns: seq<Turn>, i: nat)
    requires Consistent(d0) && Startable(bundles) && i < |bundles|
    requires Settled(After(d0, bundles, turns).builders)
    requires After(d0, bundles, turns).builders[i].pc == Done(Published)
    ensures OnlyBundleAdded(d0, After(d0, bundles, turns).disk, After(d0, bundles, turns).builders[i].files)
  {
    hide HasFiveFiles, After, SameExcess, AllApart, Accounted, Settled, Consistent;
    var s := After(d0, bundles, turns);
    var d := s.disk;
    Reached(d0, bundles, turns);
    var b := s.builders[i];
    assert Sound(d0, b, d);
    assert d.top[OutputDir].children[ManifestJson] in b.own;
    if OutputDir in d0.top {
      NoDangling(d0, Under(OutputDir, ManifestJson));
    }
    forall n | n in d.top && n != OutputDir ensures n in d0.top {
      if n !in d0.top {
        SettledNames(d0, s, n);
      }
    }
    assert d.top - {OutputDir} == d0.top;
    forall k | k in d.nodes && k !in ChildInos(d, OutputDir) ensures k in d0.nodes {
      if k !in d0.nodes {
        SettledNodes(d0, s, k);
      }
    }
    assert b.own == ChildInos(d, OutputDir);
    assert d.nodes - ChildInos(d, OutputDir) == d0.nodes;
  }

  /** At most one builder ever publishes. */
  lemma PublishesOnce(d0: Disk, bundles: seq<map<Name, Bytes>>, turns: seq<Turn>, i: nat, j: nat)
    requires Consistent(d0) && Startable(bundles) && i < |bundles| && j < |bundles|
    requires After(d0, bundles, turns).builders[i].pc == Done(Published) == After(d0, bundles, turns).builders[j].pc
    ensures i == j
  {
    hide Consistent, HasFiveFiles, After, Kept, SameExcess;
    ReachedBuilder(d0, bundles, turns, i);
    ReachedBuilder(d0, bundles, turns, j);
    var s := After(d0, bundles, turns);
    assert s.disk.top[OutputDir].children[ManifestJson] in s.builders[i].own * s.builders[j].own;
    if i != j {
      ReachedPair(d0, bundles, turns, i, j);
    }
  }

  /** Builders that succeed have all published or found the same bytes. */
  lemma SuccessesAgree(d0: Disk, bundles: seq<map<Name, Bytes>>, turns: seq<Turn>, i: nat, j: nat)
    requires Consistent(d0) && Startable(bundles) && i < |bundles| && j < |bundles|
    requires Succeeded(After(d0, bundles, turns).builders[i]) && Succeeded(After(d0, bundles, turns).builders[j])
    ensures After(d0, bundles, turns).builders[i].files == After(d0, bundles, turns).builders[j].files
  {
    hide Consistent, HasFiveFiles, After, Kept, SameExcess, WellFormedOutput;
    ReachedBuilder(d0, bundles, turns, i);
    ReachedBuilder(d0, bundles, turns, j);
  }

  // ---- a published bundle is permanent ----

  /** The output directory, its names, its files and their identities are the same. */
  ghost predicate SameOutput(d: Disk, d': Disk) {
    && OutputDir in d.top && OutputDir in d'.top && d'.top[OutputDir] == d.top[OutputDir]
    && (forall k :: k in ChildInos(d, OutputDir) && k in d.nodes ==> k in d'.nodes && d'.nodes[k] == d.nodes[k])
  }

  lemma StepKeepsOutput(d0: Disk, s: System, t: Turn, i: nat)
    requires AllReady(s) && Inv(d0, s) && i < |s.builders| && Succeeded(s.builders[i])
    ensures var s' := Step(s, t); s'.builders[i] == s.builders[i] && SameOutput(s.disk, s'.disk)
  {
    hide Consistent, Kept, SameExcess, HasFiveFiles, Next, HolderInv, Accounted;
    assert OutputMatches(s.disk, s.builders[i].files) by { assert Sound(d0, s.builders[i], s.disk); }
    if t.who < |s.builders| {
      assert Sound(d0, s.builders[t.who], s.disk);
      if t.who == i {
        OutsiderStep(d0, s.builders[i], s.disk, t.choice);
      } else {
        assert Apart(s.builders[i], s.builders[t.who]);
        OtherKeepsOutput(d0, s.builders[t.who], s.disk, t.choice, s.builders[i].files);
      }
    }
  }

  lemma OtherKeepsOutput(d0: Disk, b: Builder, d: Disk, c: Choice, files: map<Name, Bytes>)
    requires Consistent(d) && Kept(d0, d) && Sound(d0, b, d) && OutputMatches(d, files)
    requires HoldsLock(b) ==> b.session.output.None?
    ensures SameOutput(d, Next(b, d, c).d)
  {
    hide Consistent, Kept, SameExcess, HasFiveFiles, Next, Forward, Cleaning, Stored;
    var d' := Next(b, d, c).d;
    if HoldsLock(b) {
      HolderStep(d0, b, d, c);
      LockUnshared(d0, b, d);
      forall k | k in ChildInos(d, OutputDir) ensures k !in b.own {
        var n :| n in d.top[OutputDir].children && d.top[OutputDir].children[n] == k;
        assert Readable(d, Under(OutputDir, n), OUTPUT_FILE_MAX_BYTES);
        Unshared(d, Under(OutputDir, n), StageDir);
      }
    } else {
      OutsiderStep(d0, b, d, c);
    }
  }

  /** Once a builder has succeeded, no later turn of anyone changes the output directory. */
  lemma {:induction false} RunKeepsOutput(d0: Disk, s: System, turns: seq<Turn>, i: nat)
    requires AllReady(s) && Inv(d0, s) && i < |s.builders| && Succeeded(s.builders[i])
    ensures Run(s, turns).builders[i] == s.builders[i] && SameOutput(s.disk, Run(s, turns).disk)
    decreases |turns|
  {
    hide Inv, Step, AllReady;
    if turns == [] {
      assert SameOutput(s.disk, s.disk) by { SuccessHasOutput(d0, s, i); }
    } else {
      var s1 := Step(s, turns[0]);
      StepInv(d0, s, turns[0]);
      StepKeepsOutput(d0, s, turns[0], i);
      RunKeepsOutput(d0, s1, turns[1..], i);
    }
  }

  lemma SuccessHasOutput(d0: Disk, s: System, i: nat)
    requires AllReady(s) && Inv(d0, s) && i < |s.builders| && Succeeded(s.builders[i])
    ensures OutputDir in s.disk.top && OutputMatches(s.disk, s.builders[i].files)
  {
    hide Consistent, Kept, SameExcess, HasFiveFiles, HolderInv, AllApart, Accounted;
    assert Sound(d0, s.builders[i], s.disk);
  }

  lemma {:induction false} RunInTwoParts(s: System, first: seq<Turn>, second: seq<Turn>)
    requires AllReady(s)
    ensures Run(s, first + second) == Run(Run(s, first), second)
    decreases |first|
  {
    hide AllReady, Step;
    if first == [] {
      assert [] + second == second;
    } else {
      assert (first + second)[1..] == first[1..] + second;
      RunInTwoParts(Step(s, first[0]), first[1..], second);
    }
  }

  lemma SuccessIsPermanent(d0: Disk, bundles: seq<map<Name, Bytes>>, turns: seq<Turn>, more: seq<Turn>, i: nat)
    requires Consistent(d0) && Startable(bundles) && i < |bundles|
    requires Succeeded(After(d0, bundles, turns).builders[i])
    ensures var s, s' := After(d0, bundles, turns), After(d0, bundles, turns + more);
            && s'.builders[i] == s.builders[i]
            && SameOutput(s.disk, s'.disk)
            && OutputMatches(s'.disk, s.builders[i].files)
  {
    hide Inv, Run, Launch, HasFiveFiles, OutputMatches, SameOutput;
    var s := After(d0, bundles, turns);
    Reached(d0, bundles, turns);
    Reached(d0, bundles, turns + more);
    RunInTwoParts(Launch(d0, bundles), turns, more);
    RunKeepsOutput(d0, s, more, i);
    SuccessHasOutput(d0, After(d0, bundles, turns + more), i);
  }

  /** Nothing that was in `.local` at the start is ever changed, by any run. */
  lemma InitialContentKept(d0: Disk, bundles: seq<map<Name, Bytes>>, turns: seq<Turn>)
    requires Consistent(d0) && Startable(bundles)
    ensures Kept(d0, After(d0, bundles, turns).disk)
  {
    hide Kept, After, Consistent, HasFiveFiles, SameExcess;
    Reached(d0, bundles, turns);
  }

  // ---- link counts ----

  /** In every state, of every run: a file that a builder created has exactly as many
      links as names in `.local`; the surplus of any other file is what it was. */
  lemma LinksAreNames(d0: Disk, bundles: seq<map<Name, Bytes>>, turns: seq<Turn>, k: Ino)
    requires Consistent(d0) && Startable(bundles)
    ensures var d := After(d0, bundles, turns).disk;
            && Excess(d, k) == Excess(d0, k)
            && (k in d.nodes && k !in d0.nodes ==> d.nodes[k].links == |Names(d, k)|)
  {
    hide HasFiveFiles, After, Kept, AllSound, AllApart, Accounted, Names;
    Reached(d0, bundles, turns);
    assert Excess(d0, k) >= 0;
  }

  // ---- the manifest comes last ----

  /** File `n` of the bundle is in `dir` with the rendered bytes. */
  ghost predicate Carries(d: Disk, dir: Name, n: Name, files: map<Name, Bytes>) {
    && n in files && IsFile(d, Under(dir, n))
    && var node := d.nodes[Lookup(d, Under(dir, n)).value];
       node.regular && node.bytes == files[n]
  }

  lemma BetweenCarries(s: Session, files: map<Name, Bytes>, d: Disk, staged: set<Name>, published: set<Name>,
      but: set<Name>, n: Name)
    requires Between(s, files, d, staged, published, but)
    ensures n in staged - but ==> Carries(d, StageDir, n, files)
    ensures n in published - but ==> Carries(d, OutputDir, n, files)
    ensures OutputDir in d.top && d.top[OutputDir].DirAt? && d.top[OutputDir].children.Keys == published
  {
    if n in staged - but {
      assert FileIs(d, StageDir, n, files[n], 1);
    }
    if n in published - but {
      assert FileIs(d, OutputDir, n, files[n], 1);
    }
  }

  lemma PrefixCovers(i: nat)
    requires i <= 5
    ensures Prefix(i) + Remaining(i) == OutputNames()
    ensures ManifestJson in Prefix(i) <==> i == 5
  {
    PrefixIs(i);
    assert Prefix(i) <= OutputNames();
    assert OUTPUT_FILENAMES[4] == ManifestJson;
  }

  /** Which files are published, at each forward step. */
  function PublishedNames(pc: Pc): set<Name>
    requires InRange(pc)
  {
    match pc
    case Linking(i) => Prefix(i)
    case Unstaging(i) => Prefix(i + 1)
    case UnstageUnlink(i) => Prefix(i + 1)
    case ReadBack(i) => Prefix(i + 1)
    case SourceGate => Prefix(4)
    case _ => OutputNames()
  }

  lemma ForwardCovers(b: Builder, d: Disk, n: Name)
    requires Ready(b) && Forward(b, d) && b.session.output.Some? && n in OutputNames()
    ensures Carries(d, StageDir, n, b.files) || Carries(d, OutputDir, n, b.files)
    ensures OutputDir in d.top && d.top[OutputDir].DirAt? && d.top[OutputDir].children.Keys == PublishedNames(b.pc)
    ensures ManifestJson in PublishedNames(b.pc) ==> b.sourceChecked && Carries(d, OutputDir, n, b.files)
  {
    hide Holding, Prefix, Remaining, OutputNames, FileName, IsFile, OutputMatches;
    match b.pc
    case SourceGate => CoveredAt(b, d, 4, n);
    case Linking(i) => CoveredAt(b, d, i, n);
    case Unstaging(i) => HandingCovers(b, d, i, n);
    case UnstageUnlink(i) => HandingCovers(b, d, i, n);
    case ReadBack(i) => HandedCovers(b, d, i, n);
    case RemovingStage => BetweenCarries(b.session, b.files, d, {}, OutputNames(), {}, n);
    case _ => CompleteCarries(b, d, n);
  }

  lemma CompleteCarries(b: Builder, d: Disk, n: Name)
    requires Complete(b.session, b.files, d) && n in OutputNames()
    ensures Carries(d, OutputDir, n, b.files)
    ensures OutputDir in d.top && d.top[OutputDir].DirAt? && d.top[OutputDir].children.Keys == OutputNames()
  {
    assert FileIs(d, OutputDir, n, b.files[n], 1);
  }

  lemma CoveredAt(b: Builder, d: Disk, i: nat, n: Name)
    requires i < 5 && Between(b.session, b.files, d, Remaining(i), Prefix(i), {}) && n in OutputNames()
    ensures Carries(d, StageDir, n, b.files) || Carries(d, OutputDir, n, b.files)
    ensures OutputDir in d.top && d.top[OutputDir].DirAt? && d.top[OutputDir].children.Keys == Prefix(i)
    ensures ManifestJson !in Prefix(i)
  {
    hide Holding, Prefix, Remaining, OutputNames;
    PrefixCovers(i);
    BetweenCarries(b.session, b.files, d, Remaining(i), Prefix(i), {}, n);
  }

  lemma HandingCovers(b: Builder, d: Disk, i: nat, n: Name)
    requires HasFiveFiles(b.files) && i < 5 && Handing(b.session, b.files, d, i) && n in OutputNames()
    ensures Carries(d, StageDir, n, b.files) || Carries(d, OutputDir, n, b.files)
    ensures OutputDir in d.top && d.top[OutputDir].DirAt? && d.top[OutputDir].children.Keys == Prefix(i + 1)
    ensures ManifestJson in Prefix(i + 1) ==> i == 4 && Carries(d, OutputDir, n, b.files)
  {
    hide Holding, Prefix, Remaining, OutputNames, FileName;
    PrefixCovers(i);
    PrefixCovers(i + 1);
    NextName(i);
    BetweenCarries(b.session, b.files, d, Remaining(i), Prefix(i + 1), {FileName(i)}, n);
  }

  lemma HandedCovers(b: Builder, d: Disk, i: nat, n: Name)
    requires HasFiveFiles(b.files) && i < 5 && Handed(b.session, b.files, d, i) && n in OutputNames()
    ensures Carries(d, StageDir, n, b.files) || Carries(d, OutputDir, n, b.files)
    ensures OutputDir in d.top && d.top[OutputDir].DirAt? && d.top[OutputDir].children.Keys == Prefix(i + 1)
    ensures ManifestJson in Prefix(i + 1) ==> i == 4 && Carries(d, OutputDir, n, b.files)
  {
    hide Holding, Prefix, Remaining, OutputNames, FileName;
    PrefixCovers(i + 1);
    NextName(i);
    BetweenCarries(b.session, b.files, d, Remaining(i + 1), Prefix(i + 1), {FileName(i)}, n);
  }

  /** While a builder is moving forward with an output directory of its own, each of
      the five files is in one of the two directories with exactly the rendered bytes;
      and once that directory holds a manifest, it holds all five and the source check
      has passed. Not claimed while cleaning up after a failure. */
  lemma ManifestLast(d0: Disk, bundles: seq<map<Name, Bytes>>, turns: seq<Turn>, i: nat, n: Name)
    requires Consistent(d0) && Startable(bundles) && i < |bundles| && n in OutputNames()
    requires var b := After(d0, bundles, turns).builders[i]; HoldsLock(b) && !b.failed && b.session.output.Some?
    ensures var s := After(d0, bundles, turns);
            var b, d := s.builders[i], s.disk;
            && (Carries(d, StageDir, n, b.files) || Carries(d, OutputDir, n, b.files))
            && IsDir(d, OutputDir, b.session.output.value)
            && (ManifestJson in d.top[OutputDir].children ==> b.sourceChecked && Carries(d, OutputDir, n, b.files))
  {
    hide After, Consistent, Kept, SameExcess, Carries, PublishedNames, Forward, HasFiveFiles, OutputNames;
    var s := After(d0, bundles, turns);
    ReachedBuilder(d0, bundles, turns, i);
    ForwardCovers(s.builders[i], s.disk, n);
  }
}
