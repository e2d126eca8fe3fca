/** Stage events, their aggregates and the timing snapshot
    (tools/local-stack/run_observability_demo.py:656-720). */
module Observability {
  import opened Basics
  import opened SetOrder
  import opened TextOrder

  const STAGES: seq<string> := [
    "source_revision", "source_cleanliness", "preflight", "workspace_init", "workspace_status",
    "governance_preview", "approval_execute", "terminal_verify", "workspace_cleanup", "run_finalize"]
  const BRANCHES: seq<string> := ["none", "success", "failure"]
  const OUTCOMES: seq<string> := ["SUCCEEDED", "FAILED"]
  const ERROR_CLASSES: seq<string> := ["NONE", "INPUT", "EXECUTION", "CONTRACT", "CLEANUP", "ARTIFACT", "OBSERVATION"]
  const LABEL_KEYS: seq<string> := ["branch", "error_class", "outcome", "stage"]

  datatype Event = Event(attempt: int, branch: string, durationMs: int, errorClass: string, outcome: string,
      sequence: int, stage: string)

  /** The metric labels, in the order of LABEL_KEYS. */
  datatype Label = Label(branch: string, errorClass: string, outcome: string, stage: string)
  datatype Cell = Cell(eventCount: int, durationMs: int)
  datatype Series = Series(cell: Cell, tags: Label)
  datatype Metrics = Metrics(highCardinality: bool, labelKeys: seq<string>, series: seq<Series>)
  datatype Timing = Timing(
    byBranch: map<string, Cell>, byStage: map<string, Cell>,
    diagnosticOnly: bool, instrumentedMs: int, sampleCount: int, wallMs: int)

  function LabelOf(e: Event): Label {
    Label(e.branch, e.errorClass, e.outcome, e.stage)
  }

  function BranchOf(e: Event): string { e.branch }

  function StageOf(e: Event): string { e.stage }

  predicate LabelValid(l: Label) {
    l.stage in STAGES && l.branch in BRANCHES && l.outcome in OUTCOMES && l.errorClass in ERROR_CLASSES
  }

  predicate WellFormed(events: seq<Event>) {
    forall i :: 0 <= i < |events| ==> LabelValid(LabelOf(events[i])) && events[i].durationMs >= 0
  }

  // ---- counting by any projection ----

  function Count<T(==)>(events: seq<Event>, of: Event -> T, x: T): nat {
    if events == [] then 0
    else Count(events[..|events| - 1], of, x) + (if of(events[|events| - 1]) == x then 1 else 0)
  }

  function Spent<T(==)>(events: seq<Event>, of: Event -> T, x: T): int {
    if events == [] then 0
    else Spent(events[..|events| - 1], of,
        x) + (if of(events[|events| - 1]) == x then events[|events| - 1].durationMs else 0)
  }

  function Total(events: seq<Event>): int {
    if events == [] then 0 else Total(events[..|events| - 1]) + events[|events| - 1].durationMs
  }

  function Tallied<T(==)>(events: seq<Event>, of: Event -> T, x: T): Cell {
    Cell(Count(events, of, x), Spent(events, of, x))
  }

  lemma Snoc<T>(events: seq<Event>, k: nat, of: Event -> T, x: T)
    requires k < |events|
    ensures Count(events[..k + 1], of, x) == Count(events[..k], of, x) + (if of(events[k]) == x then 1 else 0)
    ensures Spent(events[..k + 1], of, x) == Spent(events[..k], of,
        x) + (if of(events[k]) == x then events[k].durationMs else 0)
    ensures Total(events[..k + 1]) == Total(events[..k]) + events[k].durationMs
  {
    assert events[..k + 1][..k] == events[..k];
  }

  // ---- conservation ----

  function SumCounts<T(==)>(events: seq<Event>, of: Event -> T, names: seq<T>): nat {
    if names == [] then 0 else Count(events, of, names[0]) + SumCounts(events, of, names[1..])
  }

  function SumSpent<T(==)>(events: seq<Event>, of: Event -> T, names: seq<T>): int {
    if names == [] then 0 else Spent(events, of, names[0]) + SumSpent(events, of, names[1..])
  }

  predicate NoRepeats<T(==)>(names: seq<T>) {
    forall i, j :: 0 <= i < j < |names| ==> names[i] != names[j]
  }

  lemma {:induction false} SumsSnoc<T>(events: seq<Event>, k: nat, of: Event -> T, names: seq<T>)
    requires k < |events| && NoRepeats(names)
    ensures SumCounts(events[..k + 1], of, names) == SumCounts(events[..k], of,
        names) + (if of(events[k]) in names then 1 else 0)
    ensures SumSpent(events[..k + 1], of, names) == SumSpent(events[..k], of,
        names) + (if of(events[k]) in names then events[k].durationMs else 0)
    decreases |names|
  {
    if names != [] {
      Snoc(events, k, of, names[0]);
      SumsSnoc(events, k, of, names[1..]);
      assert names == [names[0]] + names[1..];
      assert names[0] !in names[1..];
    }
  }

  /** Split by any label that covers the events, counts and durations add up to the whole. */
  lemma {:induction false} SumsConserved<T>(events: seq<Event>, of: Event -> T, names: seq<T>)
    requires NoRepeats(names) && forall i :: 0 <= i < |events| ==> of(events[i]) in names
    ensures SumCounts(events, of, names) == |events| && SumSpent(events, of, names) == Total(events)
  {
    if events == [] {
      SumsOfNone(of, names);
    } else {
      var k := |events| - 1;
      SumsConserved(events[..k], of, names);
      SumsSnoc(events, k, of, names);
      assert events[..k + 1] == events;
    }
  }

  lemma {:induction false} SumsOfNone<T>(of: Event -> T, names: seq<T>)
    ensures SumCounts([], of, names) == 0 && SumSpent([], of, names) == 0
    decreases |names|
  {
    if names != [] {
      SumsOfNone(of, names[1..]);
    }
  }

  // ---- label order ----

  predicate LabelLess(a: Label, b: Label) {
    || Less(a.branch, b.branch)
    || (a.branch == b.branch && (Less(a.errorClass, b.errorClass)
    || (a.errorClass == b.errorClass && (Less(a.outcome, b.outcome)
    || (a.outcome == b.outcome && Less(a.stage, b.stage))))))
  }

  /** Branch, error class, outcome, stage, in this order. */
  lemma LabelLessIsBefore(a: Label, b: Label)
    ensures LabelLess(a, b) <==>
            TupleBefore([a.branch, a.errorClass, a.outcome, a.stage], [b.branch, b.errorClass, b.outcome, b.stage])
  {
    hide Before, Less;
    LessIsBefore(a.branch, b.branch);
    LessIsBefore(a.errorClass, b.errorClass);
    LessIsBefore(a.outcome, b.outcome);
    LessIsBefore(a.stage, b.stage);
    var x, y := [a.branch, a.errorClass, a.outcome, a.stage], [b.branch, b.errorClass, b.outcome, b.stage];
    assert x[..0] == y[..0] && x[..1] == [a.branch] && y[..1] == [b.branch];
    assert x[..2] == [a.branch, a.errorClass] && y[..2] == [b.branch, b.errorClass];
    assert x[..3] == [a.branch, a.errorClass, a.outcome] && y[..3] == [b.branch, b.errorClass, b.outcome];
    assert x[..2] == y[..2] <==> a.branch == b.branch && a.errorClass == b.errorClass by { PairsEqual(a, b); }
    assert x[..3] == y[..3] <==> a.branch == b.branch && a.errorClass == b.errorClass && a.outcome == b.outcome
      by { PairsEqual(a, b); }
  }

  lemma PairsEqual(a: Label, b: Label)
    ensures [a.branch, a.errorClass] == [b.branch, b.errorClass] <==>
            a.branch == b.branch && a.errorClass == b.errorClass
    ensures [a.branch, a.errorClass, a.outcome] == [b.branch, b.errorClass, b.outcome] <==>
            a.branch == b.branch && a.errorClass == b.errorClass && a.outcome == b.outcome
  {
    var p, q := [a.branch, a.errorClass], [b.branch, b.errorClass];
    var r, s := [a.branch, a.errorClass, a.outcome], [b.branch, b.errorClass, b.outcome];
    assert p == q ==> p[0] == q[0] && p[1] == q[1];
    assert r == s ==> r[0] == s[0] && r[1] == s[1] && r[2] == s[2];
  }

  lemma LabelsOrdered(a: Label, b: Label)
    ensures LabelLess(a, b) ==> !LabelLess(b, a) && a != b
    ensures LabelLess(a, b) || LabelLess(b, a) || a == b
  {
    LessAsymmetric(a.branch, b.branch);
    LessAsymmetric(a.errorClass, b.errorClass);
    LessAsymmetric(a.outcome, b.outcome);
    LessAsymmetric(a.stage, b.stage);
    LessAsymmetric(b.branch, a.branch);
    LessAsymmetric(b.errorClass, a.errorClass);
    LessAsymmetric(b.outcome, a.outcome);
    LessTotal(a.branch, b.branch);
    LessTotal(a.errorClass, b.errorClass);
    LessTotal(a.outcome, b.outcome);
    LessTotal(a.stage, b.stage);
  }

  lemma LabelsTransitive(a: Label, b: Label, c: Label)
    requires LabelLess(a, b) && LabelLess(b, c)
    ensures LabelLess(a, c)
  {
    if Less(a.branch, b.branch) && Less(b.branch, c.branch) { LessTransitive(a.branch, b.branch, c.branch); }
    if Less(a.errorClass, b.errorClass)
        && Less(b.errorClass, c.errorClass) { LessTransitive(a.errorClass, b.errorClass, c.errorClass); }
    if Less(a.outcome, b.outcome) && Less(b.outcome, c.outcome) { LessTransitive(a.outcome, b.outcome, c.outcome); }
    if Less(a.stage, b.stage) && Less(b.stage, c.stage) { LessTransitive(a.stage, b.stage, c.stage); }
  }

  lemma LabelsAreOrdered()
    ensures TotalOrder(LabelLess)
  {
    hide LabelLess;
    forall a, b ensures (LabelLess(a, b) ==> !LabelLess(b, a) && a != b)
        && (LabelLess(a, b) || LabelLess(b, a) || a == b) {
      LabelsOrdered(a, b);
    }
    forall a, b, c | LabelLess(a, b) && LabelLess(b, c) ensures LabelLess(a, c) {
      LabelsTransitive(a, b, c);
    }
  }

  // ---- metrics ----

  function LabelsIn(events: seq<Event>): set<Label> {
    set i | 0 <= i < |events| :: LabelOf(events[i])
  }

  function SeriesLabels(series: seq<Series>): (labels: seq<Label>)
    ensures |labels| == |series|
  {
    seq(|series|, i requires 0 <= i < |series| => series[i].tags)
  }

  /** `m` is the aggregate of these events: one series per label that occurs, ascending. */
  ghost predicate IsMetrics(m: Metrics, events: seq<Event>) {
    && !m.highCardinality && m.labelKeys == LABEL_KEYS
    && InOrder(LabelLess, SeriesLabels(m.series))
    && (forall l :: l in SeriesLabels(m.series) <==> l in LabelsIn(events))
    && (forall i :: 0 <= i < |m.series| ==> m.series[i].cell == Tallied(events, LabelOf, m.series[i].tags))
  }

  lemma OneMetrics(m: Metrics, n: Metrics, events: seq<Event>)
    requires IsMetrics(m, events) && IsMetrics(n, events)
    ensures m == n
  {
    hide InOrder, TotalOrder, LabelOf, LabelsIn, Tallied;
    LabelsAreOrdered();
    OneOrder(LabelLess, SeriesLabels(m.series), SeriesLabels(n.series));
    forall i | 0 <= i < |m.series| ensures m.series[i] == n.series[i] {
      assert SeriesLabels(m.series)[i] == SeriesLabels(n.series)[i];
    }
  }

  function SeriesCount(series: seq<Series>): int {
    if series == [] then 0 else series[0].cell.eventCount + SeriesCount(series[1..])
  }

  function SeriesSpent(series: seq<Series>): int {
    if series == [] then 0 else series[0].cell.durationMs + SeriesSpent(series[1..])
  }

  lemma {:induction false} SeriesSums(series: seq<Series>, events: seq<Event>)
    requires forall i :: 0 <= i < |series| ==> series[i].cell == Tallied(events, LabelOf, series[i].tags)
    ensures SeriesCount(series) == SumCounts(events, LabelOf, SeriesLabels(series))
    ensures SeriesSpent(series) == SumSpent(events, LabelOf, SeriesLabels(series))
  {
    if series != [] {
      SeriesSums(series[1..], events);
      assert SeriesLabels(series)[1..] == SeriesLabels(series[1..]);
    }
  }

  /** No event and no millisecond is lost or counted twice by the series. */
  lemma MetricsConserve(m: Metrics, events: seq<Event>)
    requires IsMetrics(m, events)
    ensures SeriesCount(m.series) == |events| && SeriesSpent(m.series) == Total(events)
  {
    hide LabelOf, Tallied;
    var labels := SeriesLabels(m.series);
    LabelsAreOrdered();
    forall i | 0 <= i < |events| ensures LabelOf(events[i]) in labels { assert LabelOf(events[i]) in LabelsIn(events); }
    SumsConserved(events, LabelOf, labels);
    SeriesSums(m.series, events);
  }

  /** Adds one event to its cell. */
  function Bump<T>(cells: map<T, Cell>, x: T, durationMs: int): map<T, Cell> {
    var cell := if x in cells then cells[x] else Cell(0, 0);
    cells[x := Cell(cell.eventCount + 1, cell.durationMs + durationMs)]
  }

  /** `cells` holds the tallies of `events` for exactly the labels met so far. */
  ghost predicate Aggregates(cells: map<Label, Cell>, events: seq<Event>) {
    && cells.Keys == LabelsIn(events)
    && (forall l :: l in cells ==> cells[l] == Tallied(events, LabelOf, l))
  }

  lemma {:induction false} AbsentLabel(events: seq<Event>, l: Label)
    requires l !in LabelsIn(events)
    ensures Tallied(events, LabelOf, l) == Cell(0, 0)
  {
    if events != [] {
      var k := |events| - 1;
      assert LabelOf(events[k]) in LabelsIn(events);
      assert forall i :: 0 <= i < k ==> LabelOf(events[..k][i]) in LabelsIn(events);
      AbsentLabel(events[..k], l);
    }
  }

  lemma AggregateStep(cells: map<Label, Cell>, events: seq<Event>, k: nat)
    requires k < |events| && Aggregates(cells, events[..k])
    ensures Aggregates(Bump(cells, LabelOf(events[k]), events[k].durationMs), events[..k + 1])
  {
    hide LabelOf;
    var l := LabelOf(events[k]);
    var before, after := events[..k], events[..k + 1];
    forall x ensures x in LabelsIn(after) <==> x in LabelsIn(before) || x == l {
      if x in LabelsIn(before) {
        var i :| 0 <= i < k && LabelOf(before[i]) == x;
        assert after[i] == before[i];
      }
      if x in LabelsIn(after) {
        var i :| 0 <= i < k + 1 && LabelOf(after[i]) == x;
        assert i < k ==> before[i] == after[i];
      }
      assert after[k] == events[k];
    }
    if l !in LabelsIn(before) {
      AbsentLabel(before, l);
    }
    forall x | x in LabelsIn(after) ensures Bump(cells, l, events[k].durationMs)[x] == Tallied(after, LabelOf, x) {
      Snoc(events, k, LabelOf, x);
    }
  }

  method SeriesFrom(cells: map<Label, Cell>, ghost events: seq<Event>) returns (series: seq<Series>)
    requires Aggregates(cells, events)
    ensures IsMetrics(Metrics(false, LABEL_KEYS, series), events)
  {
    hide InOrder, TotalOrder, LabelsIn, LabelOf, Tallied;
    LabelsAreOrdered();
    var keys := SortSet(LabelLess, cells.Keys);
    series := [];
    for k := 0 to |keys|
      invariant SeriesLabels(series) == keys[..k]
      invariant forall i :: 0 <= i < |series| ==> series[i].cell == Tallied(events, LabelOf, series[i].tags)
    {
      assert keys[k] in keys;
      series := series + [Series(cells[keys[k]], keys[k])];
    }
    assert keys[..|keys|] == keys;
  }

  /** `_metrics`: refuses an unknown label, otherwise aggregates. */
  method AggregateMetrics(events: seq<Event>) returns (m: Option<Metrics>)
    ensures m.Some? <==> forall i :: 0 <= i < |events| ==> LabelValid(LabelOf(events[i]))
    ensures m.Some? ==> IsMetrics(m.value, events)
  {
    hide LabelValid, LabelOf, IsMetrics, Aggregates;
    var cells: map<Label, Cell> := map[];
    NoAggregates();
    assert events[..0] == [];
    for k := 0 to |events|
      invariant Aggregates(cells, events[..k])
      invariant forall i :: 0 <= i < k ==> LabelValid(LabelOf(events[i]))
    {
      AggregateStep(cells, events, k);
      var e := events[k];
      LabelSpelled(e);
      if e.branch !in BRANCHES || e.errorClass !in ERROR_CLASSES || e.outcome !in OUTCOMES || e.stage !in STAGES {
        return None;
      }
      cells := Bump(cells, Label(e.branch, e.errorClass, e.outcome, e.stage), e.durationMs);
    }
    assert events[..|events|] == events;
    var series := SeriesFrom(cells, events);
    return Some(Metrics(false, LABEL_KEYS, series));
  }

  lemma LabelSpelled(e: Event)
    ensures LabelOf(e) == Label(e.branch, e.errorClass, e.outcome, e.stage)
    ensures LabelValid(LabelOf(e)) <==>
            e.branch in BRANCHES && e.errorClass in ERROR_CLASSES && e.outcome in OUTCOMES && e.stage in STAGES
  {
  }

  lemma NoAggregates()
    ensures Aggregates(map[], [])
  {
  }

  // ---- timing ----

  ghost predicate CellsOf(cells: map<string, Cell>, names: seq<string>, events: seq<Event>, of: Event -> string) {
    && (forall n :: n in cells <==> n in names)
    && (forall n :: n in cells ==> cells[n] == Tallied(events, of, n))
  }

  function Zeroes(names: seq<string>): map<string, Cell> {
    map i | 0 <= i < |names| :: names[i] := Cell(0, 0)
  }

  lemma ZeroCells(names: seq<string>, of: Event -> string)
    ensures CellsOf(Zeroes(names), names, [], of)
  {
  }

  lemma CellStep(cells: map<string, Cell>, names: seq<string>, events: seq<Event>, k: nat, of: Event -> string)
    requires k < |events| && CellsOf(cells, names, events[..k], of) && of(events[k]) in names
    ensures CellsOf(Bump(cells, of(events[k]), events[k].durationMs), names, events[..k + 1], of)
  {
    forall n | n in names
      ensures Bump(cells, of(events[k]), events[k].durationMs)[n] == Tallied(events[..k + 1], of, n)
    {
      Snoc(events, k, of, n);
    }
  }

  predicate KnownBranch(b: string) { b in BRANCHES }

  predicate KnownStage(s: string) { s in STAGES }

  ghost predicate BranchCells(cells: map<string, Cell>, events: seq<Event>) {
    CellsOf(cells, BRANCHES, events, BranchOf)
  }

  ghost predicate StageCells(cells: map<string, Cell>, events: seq<Event>) {
    CellsOf(cells, STAGES, events, StageOf)
  }

  ghost predicate IsTiming(t: Timing, events: seq<Event>, wallMs: int) {
    && BranchCells(t.byBranch, events) && StageCells(t.byStage, events)
    && t.diagnosticOnly && t.instrumentedMs == Total(events) && t.sampleCount == 1 && t.wallMs == wallMs
  }

  lemma OneTiming(t: Timing, u: Timing, events: seq<Event>, wallMs: int)
    requires IsTiming(t, events, wallMs) && IsTiming(u, events, wallMs)
    ensures t == u
  {
    hide Tallied;
    assert t.byBranch == u.byBranch && t.byStage == u.byStage;
  }

  predicate Placed(events: seq<Event>) {
    forall i :: 0 <= i < |events| ==> KnownBranch(events[i].branch) && KnownStage(events[i].stage)
  }

  function SumCells(cells: map<string, Cell>, names: seq<string>): Cell
    requires forall n :: n in names ==> n in cells
  {
    if names == [] then Cell(0, 0)
    else
      var rest := SumCells(cells, names[1..]);
      Cell(cells[names[0]].eventCount + rest.eventCount, cells[names[0]].durationMs + rest.durationMs)
  }

  lemma {:induction false} CellSums(cells: map<string, Cell>, names: seq<string>, events: seq<Event>,
      of: Event -> string)
    requires forall n :: n in names ==> n in cells && cells[n] == Tallied(events, of, n)
    ensures SumCells(cells, names) == Cell(SumCounts(events, of, names), SumSpent(events, of, names))
  {
    if names != [] {
      CellSums(cells, names[1..], events, of);
    }
  }

  lemma NamesDiffer()
    ensures NoRepeats(BRANCHES) && NoRepeats(STAGES)
  {
    assert |"none"| == 4 && |"success"| == 7 && |"failure"| == 7 && "success"[0] != "failure"[0];
    StagesDiffer();
  }

  lemma StagesDiffer()
    ensures NoRepeats(STAGES)
  {
    assert |STAGES[0]| == 15 && |STAGES[1]| == 18 && |STAGES[2]| == 9 && |STAGES[3]| == 14 && |STAGES[4]| == 16;
    assert |STAGES[5]| == 18 && |STAGES[6]| == 16 && |STAGES[7]| == 15 && |STAGES[8]| == 17 && |STAGES[9]| == 12;
    assert STAGES[0][0] == 's' && STAGES[7][0] == 't' && STAGES[1][0] == 's' && STAGES[5][0] == 'g';
    assert STAGES[4][0] == 'w' && STAGES[6][0] == 'a';
  }

  /** The branch totals, and the stage totals, each add up to the whole list. */
  lemma TimingConserves(t: Timing, events: seq<Event>, wallMs: int)
    requires IsTiming(t, events, wallMs) && Placed(events)
    ensures SumCells(t.byBranch, BRANCHES) == Cell(|events|, t.instrumentedMs)
    ensures SumCells(t.byStage, STAGES) == Cell(|events|, t.instrumentedMs)
  {
    hide Tallied, NoRepeats;
    NamesDiffer();
    SumsConserved(events, BranchOf, BRANCHES);
    SumsConserved(events, StageOf, STAGES);
    CellSums(t.byBranch, BRANCHES, events, BranchOf);
    CellSums(t.byStage, STAGES, events, StageOf);
  }

  lemma TimingStart()
    ensures BranchCells(Zeroes(BRANCHES), []) && StageCells(Zeroes(STAGES), [])
  {
    ZeroCells(BRANCHES, BranchOf);
    ZeroCells(STAGES, StageOf);
  }

  lemma TimingStep(byBranch: map<string, Cell>, byStage: map<string, Cell>, events: seq<Event>, k: nat)
    requires k < |events| && BranchCells(byBranch, events[..k]) && StageCells(byStage, events[..k])
    requires KnownBranch(events[k].branch) && KnownStage(events[k].stage)
    ensures BranchCells(Bump(byBranch, events[k].branch, events[k].durationMs), events[..k + 1])
    ensures StageCells(Bump(byStage, events[k].stage, events[k].durationMs), events[..k + 1])
    ensures Total(events[..k + 1]) == Total(events[..k]) + events[k].durationMs
  {
    hide CellsOf, Bump;
    CellStep(byBranch, BRANCHES, events, k, BranchOf);
    CellStep(byStage, STAGES, events, k, StageOf);
    Snoc(events, k, BranchOf, "");
  }

  lemma EventPlaced(e: Event)
    ensures KnownBranch(e.branch) && KnownStage(e.stage) <==> e.branch in BRANCHES && e.stage in STAGES
  {
  }

  lemma NotPlaced(events: seq<Event>, k: nat)
    requires k < |events| && !(events[k].branch in BRANCHES && events[k].stage in STAGES)
    ensures !Placed(events)
  {
    EventPlaced(events[k]);
  }

  /** `_timing_snapshot`; an unknown branch or stage is a KeyError. */
  method TimingSnapshot(events: seq<Event>, wallMs: int) returns (t: Option<Timing>)
    ensures t.Some? <==> Placed(events)
    ensures t.Some? ==> IsTiming(t.value, events, wallMs)
  {
    hide CellsOf, Bump, BranchCells, StageCells, KnownBranch, KnownStage, Zeroes;
    var byBranch, byStage, total := Zeroes(BRANCHES), Zeroes(STAGES), 0;
    TimingStart();
    assert events[..0] == [];
    for k := 0 to |events|
      invariant BranchCells(byBranch, events[..k]) && StageCells(byStage, events[..k])
      invariant total == Total(events[..k]) && Placed(events[..k])
    {
      var e := events[k];
      if e.branch !in BRANCHES || e.stage !in STAGES {
        NotPlaced(events, k);
        return None;
      }
      EventPlaced(e);
      TimingStep(byBranch, byStage, events, k);
      byBranch := Bump(byBranch, e.branch, e.durationMs);
      byStage := Bump(byStage, e.stage, e.durationMs);
      total := total + e.durationMs;
    }
    assert events[..|events|] == events;
    return Some(Timing(byBranch, byStage, true, total, 1, wallMs));
  }
}
