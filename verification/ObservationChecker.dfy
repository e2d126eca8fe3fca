/** The independent checker of an observation report and the acceptance verdict
    (tools/local-stack/run_slo_evidence_demo.py:618-1028). */
module ObservationChecker {
  import opened Basics
  import opened Observability
  import opened Recorder

  /** An element of the reported event list: an object, or anything else. A field is None
      when it is missing or not of its type; `exactKeys` says the object has the seven
      keys and no other. */
  datatype Item =
    | Record(
        exactKeys: bool, attempt: Option<int>, branch: Option<string>, durationMs: Option<int>,
            errorClass: Option<string>,
        outcome: Option<string>, sequence: Option<int>, stage: Option<string>)
    | NoObject

  function Or<T>(x: Option<T>, otherwise: T): T {
    if x.Some? then x.value else otherwise
  }

  /** The fields as an event; no label is empty, so a missing one is never taken for one. */
  function EventOf(i: Item): Event {
    match i
    case NoObject => Event(0, "", 0, "", "", 0, "")
    case Record(_, attempt, branch, durationMs, errorClass, outcome, sequence, stage) =>
      Event(Or(attempt, 0), Or(branch, ""), Or(durationMs, 0), Or(errorClass, ""), Or(outcome, ""), Or(sequence, 0),
          Or(stage, ""))
  }

  predicate Timed(i: Item) {
    i.Record? && i.durationMs.Some? && i.durationMs.value >= 0
  }

  predicate ItemValid(i: Item) {
    Timed(i) && i.exactKeys && LabelValid(LabelOf(EventOf(i)))
  }

  function Events(items: seq<Item>): (events: seq<Event>)
    ensures |events| == |items|
  {
    seq(|items|, i requires 0 <= i < |items| => EventOf(items[i]))
  }

  lemma NoEmptyLabel()
    ensures "" !in BRANCHES && "" !in ERROR_CLASSES && "" !in OUTCOMES && "" !in STAGES
  {
    NotIn("", BRANCHES);
    NotIn("", ERROR_CLASSES);
    NotIn("", OUTCOMES);
    NotIn("", STAGES);
  }

  lemma NotIn(x: string, names: seq<string>)
    requires forall i :: 0 <= i < |names| ==> |names[i]| > 0
    ensures x == "" ==> x !in names
  {
  }

  /** What makes an item valid for the metrics: exactly the seven keys, a duration, and
      four labels that are known. */
  lemma ItemSpelled(i: Item)
    ensures ItemValid(i) <==>
            && i.Record? && i.exactKeys && i.durationMs.Some? && i.durationMs.value >= 0
            && i.branch.Some? && i.branch.value in BRANCHES && i.errorClass.Some? && i.errorClass.value in ERROR_CLASSES
            && i.outcome.Some? && i.outcome.value in OUTCOMES && i.stage.Some? && i.stage.value in STAGES
  {
    NoEmptyLabel();
    LabelSpelled(EventOf(i));
  }

  ghost predicate AllValid(items: seq<Item>) {
    forall i :: 0 <= i < |items| ==> ItemValid(items[i])
  }

  // ---- metrics ----

  /** `_metrics_valid`: recomputes the aggregate and compares. */
  method MetricsValid(m: Metrics, items: seq<Item>) returns (ok: bool)
    ensures ok <==> items != [] && AllValid(items) && IsMetrics(m, Events(items))
  {
    hide LabelValid, LabelOf, IsMetrics, Aggregates, ItemValid, EventOf;
    if items == [] {
      return false;
    }
    var cells: map<Label, Cell> := map[];
    ghost var events: seq<Event> := [];
    NoAggregates();
    for k := 0 to |items|
      invariant forall i :: 0 <= i < k ==> ItemValid(items[i])
      invariant |events| == k && forall i :: 0 <= i < k ==> events[i] == EventOf(items[i])
      invariant Aggregates(cells, events)
    {
      ItemSpelled(items[k]);
      match items[k] {
        case NoObject =>
          return false;
        case Record(exactKeys, _, branch, durationMs, errorClass, outcome, _, stage) =>
          if !exactKeys || durationMs.None? || durationMs.value < 0 {
            return false;
          }
          if branch.None? || errorClass.None? || outcome.None? || stage.None? || branch.value !in BRANCHES
              || errorClass.value !in ERROR_CLASSES || outcome.value !in OUTCOMES || stage.value !in STAGES {
            return false;
          }
      }
      var e := EventOf(items[k]);
      ghost var longer := events + [e];
      assert longer[..k] == events && longer[..k + 1] == longer;
      AggregateStep(cells, longer, k);
      LabelSpelled(e);
      cells := Bump(cells, Label(e.branch, e.errorClass, e.outcome, e.stage), e.durationMs);
      events := longer;
    }
    assert events == Events(items);
    var series := SeriesFrom(cells, events);
    ok := m == Metrics(false, LABEL_KEYS, series);
    if IsMetrics(m, events) {
      OneMetrics(m, Metrics(false, LABEL_KEYS, series), events);
    }
  }

  // ---- timing ----

  predicate TimedItem(i: Item) {
    Timed(i) && KnownBranch(EventOf(i).branch) && KnownStage(EventOf(i).stage)
  }

  /** `_child_timing_valid`; `wallMs` is the run's duration, None when it is not a
      non-negative integer. */
  method ChildTimingValid(t: Timing, items: seq<Item>, wallMs: Option<nat>) returns (ok: bool)
    ensures ok <==>
            wallMs.Some? && (forall i :: 0 <= i < |items| ==> TimedItem(items[i]))
            && IsTiming(t, Events(items), wallMs.value)
  {
    hide CellsOf, Bump, BranchCells, StageCells, KnownBranch, KnownStage, Zeroes, EventOf, TimedItem, IsTiming;
    if wallMs.None? {
      return false;
    }
    var byBranch, byStage, total := Zeroes(BRANCHES), Zeroes(STAGES), 0;
    ghost var events: seq<Event> := [];
    TimingStart();
    for k := 0 to |items|
      invariant forall i :: 0 <= i < k ==> TimedItem(items[i])
      invariant |events| == k && forall i :: 0 <= i < k ==> events[i] == EventOf(items[i])
      invariant BranchCells(byBranch, events) && StageCells(byStage, events) && total == Total(events)
    {
      TimedSpelled(items[k]);
      match items[k] {
        case NoObject =>
          return false;
        case Record(_, _, branch, durationMs, _, _, _, stage) =>
          if branch.None? || branch.value !in BRANCHES || stage.None? || stage.value !in STAGES || durationMs.None?
              || durationMs.value < 0 {
            return false;
          }
      }
      TimedIsKnown(items[k]);
      var e := EventOf(items[k]);
      ghost var longer := events + [e];
      assert longer[..k] == events && longer[..k + 1] == longer;
      TimingStep(byBranch, byStage, longer, k);
      byBranch := Bump(byBranch, e.branch, e.durationMs);
      byStage := Bump(byStage, e.stage, e.durationMs);
      total := total + e.durationMs;
      events := longer;
    }
    assert events == Events(items);
    ok := t == Timing(byBranch, byStage, true, total, 1, wallMs.value);
    TimingMade(byBranch, byStage, total, events, wallMs.value);
    if IsTiming(t, events, wallMs.value) {
      OneTiming(t, Timing(byBranch, byStage, true, total, 1, wallMs.value), events, wallMs.value);
    }
  }

  /** What makes an item count for the timing: a known branch and stage and a duration. */
  lemma TimedSpelled(i: Item)
    ensures TimedItem(i) <==>
            && i.Record? && i.branch.Some? && i.branch.value in BRANCHES && i.stage.Some? && i.stage.value in STAGES
            && i.durationMs.Some? && i.durationMs.value >= 0
  {
    NoEmptyLabel();
    EventPlaced(EventOf(i));
  }

  lemma TimedIsKnown(i: Item)
    requires TimedItem(i)
    ensures EventOf(i).durationMs >= 0 && KnownBranch(EventOf(i).branch) && KnownStage(EventOf(i).stage)
  {
    hide KnownBranch, KnownStage;
  }

  lemma TimingMade(byBranch: map<string, Cell>, byStage: map<string, Cell>, total: int, events: seq<Event>, wallMs: nat)
    requires BranchCells(byBranch, events) && StageCells(byStage, events) && total == Total(events)
    ensures IsTiming(Timing(byBranch, byStage, true, total, 1, wallMs), events, wallMs)
  {
    hide BranchCells, StageCells, Total;
  }

  // ---- producer and checker agree ----

  function Report(e: Event): Item {
    Record(true, Some(e.attempt), Some(e.branch), Some(e.durationMs), Some(e.errorClass), Some(e.outcome),
        Some(e.sequence), Some(e.stage))
  }

  function Reports(events: seq<Event>): (items: seq<Item>)
    ensures |items| == |events| && forall i :: 0 <= i < |items| ==>
            items[i] == Report(events[i]) && EventOf(items[i]) == events[i]
  {
    seq(|events|, i requires 0 <= i < |events| => Report(events[i]))
  }

  /** Whatever is reported for well-formed events, the checker accepts it exactly when it
      is what the producer computed. */
  method CheckAgainstProducer(events: seq<Event>, wallMs: nat, m: Metrics, t: Timing)
    returns (metricsOk: bool, timingOk: bool, produced: Metrics, snapshot: Timing)
    requires events != [] && WellFormed(events)
    ensures metricsOk <==> m == produced
    ensures timingOk <==> t == snapshot
    ensures SeriesCount(produced.series) == |events|
    ensures SeriesSpent(produced.series) == Total(events) == snapshot.instrumentedMs
  {
    hide LabelValid, IsMetrics, IsTiming;
    var items := Reports(events);
    assert Events(items) == events;
    forall i | 0 <= i < |events| ensures KnownBranch(events[i].branch) && KnownStage(events[i].stage) {
      LabelPlaces(events[i]);
    }
    var computed := AggregateMetrics(events);
    produced := computed.value;
    var timing := TimingSnapshot(events, wallMs);
    snapshot := timing.value;
    metricsOk := MetricsValid(m, items);
    timingOk := ChildTimingValid(t, items, Some(wallMs));
    if metricsOk { OneMetrics(m, produced, events); }
    if timingOk { OneTiming(t, snapshot, events, wallMs); }
    MetricsConserve(produced, events);
    assert snapshot.instrumentedMs == Total(events) by { TimingTotal(snapshot, events, wallMs); }
  }

  lemma LabelPlaces(e: Event)
    requires LabelValid(LabelOf(e))
    ensures KnownBranch(e.branch) && KnownStage(e.stage)
  {
  }

  lemma TimingTotal(t: Timing, events: seq<Event>, wallMs: int)
    requires IsTiming(t, events, wallMs)
    ensures t.instrumentedMs == Total(events)
  {
  }

  // ---- the observation contract ----

  datatype Expected = Expected(stage: string, branch: string, attempt: int)

  const EXPECTED_GRAPH: seq<Expected> := [
    Expected("source_revision", "none", 1), Expected("source_cleanliness", "none", 1), Expected("preflight", "none", 1),
    Expected("workspace_init", "success", 1), Expected("workspace_status", "success", 1),
    Expected("governance_preview", "success", 1),
    Expected("approval_execute", "success", 1), Expected("terminal_verify", "success", 1),
    Expected("approval_execute", "success", 2), Expected("terminal_verify", "success", 2),
    Expected("workspace_init", "failure", 1), Expected("workspace_status", "failure", 1),
    Expected("governance_preview", "failure", 1),
    Expected("approval_execute", "failure", 1), Expected("terminal_verify", "failure", 1),
    Expected("approval_execute", "failure", 2), Expected("terminal_verify", "failure", 2),
    Expected("workspace_cleanup", "success", 1), Expected("workspace_cleanup", "failure", 1),
    Expected("source_revision", "none", 2), Expected("source_cleanliness", "none", 2),
    Expected("run_finalize", "none", 1)]
  const EVENT_COUNT: nat := 22

  /** `_event_matches`. */
  predicate EventMatches(item: Item, sequence: int, expected: Expected) {
    && Timed(item) && item.exactKeys
    && item.attempt == Some(expected.attempt) && item.branch == Some(expected.branch) && item.errorClass == Some("NONE")
    && item.outcome == Some("SUCCEEDED") && item.sequence == Some(sequence) && item.stage == Some(expected.stage)
  }

  /** How many of the first `k` expected events are matched in place. */
  function StageSuccesses(items: seq<Item>, k: nat): (n: nat)
    requires k <= |EXPECTED_GRAPH|
    ensures n <= k
  {
    if k == 0 then 0 else StageSuccesses(items, k - 1) + (if InPlace(items, k - 1) then 1 else 0)
  }

  /** The i-th event is there and is the expected one. */
  predicate InPlace(items: seq<Item>, i: nat)
    requires i < |EXPECTED_GRAPH|
  {
    i < |items| && EventMatches(items[i], i + 1, EXPECTED_GRAPH[i])
  }

  lemma {:induction false} AllInPlace(items: seq<Item>, k: nat)
    requires k <= |EXPECTED_GRAPH|
    ensures StageSuccesses(items, k) == k <==> forall i :: 0 <= i < k ==> InPlace(items, i)
  {
    hide InPlace;
    if k > 0 {
      AllInPlace(items, k - 1);
    }
  }

  lemma AllStagesMatch(items: seq<Item>, k: nat)
    requires k <= |EXPECTED_GRAPH|
    ensures StageSuccesses(items, k) == k <==>
            k <= |items| && forall i :: 0 <= i < k ==> EventMatches(items[i], i + 1, EXPECTED_GRAPH[i])
  {
    hide EventMatches;
    AllInPlace(items, k);
    if k > 0 && StageSuccesses(items, k) == k {
      assert InPlace(items, k - 1);
    }
  }

  /** The loop over the expected graph. */
  method CountStages(items: seq<Item>) returns (n: nat)
    ensures n == StageSuccesses(items, EVENT_COUNT)
  {
    hide InPlace;
    n := 0;
    for i := 0 to EVENT_COUNT
      invariant n == StageSuccesses(items, i)
    {
      var matched := false;
      if i < |items| {
        matched := MatchEvent(items[i], i + 1, EXPECTED_GRAPH[i].stage, EXPECTED_GRAPH[i].branch,
            EXPECTED_GRAPH[i].attempt);
      }
      assert matched <==> InPlace(items, i) by { PlaceIs(items, i); }
      if matched {
        n := n + 1;
      }
    }
  }

  lemma PlaceIs(items: seq<Item>, i: nat)
    requires i < EVENT_COUNT
    ensures var x := EXPECTED_GRAPH[i];
            InPlace(items, i) <==> i < |items| && EventMatches(items[i], i + 1, Expected(x.stage, x.branch, x.attempt))
  {
    hide EventMatches;
  }

  method MatchEvent(item: Item, sequence: int, stage: string, branch: string, attempt: int) returns (ok: bool)
    ensures ok <==> EventMatches(item, sequence, Expected(stage, branch, attempt))
  {
    if item.NoObject? || !item.exactKeys || item.durationMs.None? || item.durationMs.value < 0 {
      return false;
    }
    return item.attempt == Some(attempt) && item.branch == Some(branch) && item.errorClass == Some("NONE")
        && item.outcome == Some("SUCCEEDED") && item.sequence == Some(sequence) && item.stage == Some(stage);
  }

  /** What the recorder logs for a run of the expected graph without violations, all of it
      succeeding, and the final event after it: the checker matches every event. */
  lemma RecordedRunMatches(events: seq<Event>, wallMs: int)
    requires GraphOf(events) == CHILD_GRAPH && Sequenced(events) && wallMs >= 0
    requires forall i :: 0 <= i < |events| ==>
               events[i].outcome == "SUCCEEDED" && events[i].errorClass == "NONE" && events[i].durationMs >= 0
    ensures var all := events + [Event(1, "none", wallMs, "NONE", "SUCCEEDED", |events| + 1, "run_finalize")];
            StageSuccesses(Reports(all), EVENT_COUNT) == EVENT_COUNT == |all|
  {
    hide InPlace;
    var all := events + [Event(1, "none", wallMs, "NONE", "SUCCEEDED", |events| + 1, "run_finalize")];
    assert |CHILD_GRAPH| == 21;
    forall i | 0 <= i < EVENT_COUNT ensures InPlace(Reports(all), i) {
      GraphsAgree(i);
      if i < 21 {
        assert GraphOf(events)[i] == CHILD_GRAPH[i];
        SlotIs(events[i]);
      }
      EventInPlace(all, i);
    }
    AllInPlace(Reports(all), EVENT_COUNT);
  }

  lemma EventInPlace(all: seq<Event>, i: nat)
    requires i < |all| && i < EVENT_COUNT
    requires var e, x := all[i], EXPECTED_GRAPH[i];
             e.attempt == x.attempt && e.branch == x.branch && e.stage == x.stage && e.errorClass == "NONE"
             && e.outcome == "SUCCEEDED" && e.durationMs >= 0 && e.sequence == i + 1
    ensures InPlace(Reports(all), i)
  {
  }

  /** The producer's graph and the checker's are the same list, up to the final event. */
  lemma GraphsAgree(i: nat)
    requires i < EVENT_COUNT
    ensures |EXPECTED_GRAPH| == EVENT_COUNT == |CHILD_GRAPH| + 1
    ensures i < 21 ==>
            CHILD_GRAPH[i] == (Slot(EXPECTED_GRAPH[i].stage, EXPECTED_GRAPH[i].branch), EXPECTED_GRAPH[i].attempt)
    ensures i == 21 ==> EXPECTED_GRAPH[i] == Expected("run_finalize", "none", 1)
  {
  }

  /** One flag per branch; None when the object is missing. `exactKeys` says the object
      holds the two branches and nothing else. */
  datatype BranchFlags = BranchFlags(exactKeys: bool, success: bool, failure: bool)
  datatype Business = Business(exactKeys: bool, successAsExpected: bool, failureAsExpected: bool,
      retry: Option<BranchFlags>, cleanup: Option<BranchFlags>)
  datatype BusinessCount = BusinessCount(outcomes: nat, retries: nat, cleanups: nat, valid: bool)

  function One(b: bool): nat {
    if b then 1 else 0
  }

  function FlagCount(f: Option<BranchFlags>): nat {
    if f.None? then 0 else One(f.value.success) + One(f.value.failure)
  }

  /** `_business_counts`. */
  function BusinessCounts(b: Option<Business>): BusinessCount {
    if b.None? then BusinessCount(0, 0, 0, false)
    else
      var outcomes := One(b.value.successAsExpected) + One(b.value.failureAsExpected);
      var retries, cleanups := FlagCount(b.value.retry), FlagCount(b.value.cleanup);
      BusinessCount(outcomes, retries, cleanups,
        b.value.exactKeys && b.value.retry.Some? && b.value.retry.value.exactKeys && b.value.cleanup.Some?
            && b.value.cleanup.value.exactKeys
        && outcomes == 2 && retries == 2 && cleanups == 2)
  }

  method CountBusiness(b: Option<Business>) returns (c: BusinessCount)
    ensures c == BusinessCounts(b)
  {
    if b.None? {
      return BusinessCount(0, 0, 0, false);
    }
    var outcomes, retries, cleanups := 0, 0, 0;
    if b.value.successAsExpected { outcomes := outcomes + 1; }
    if b.value.failureAsExpected { outcomes := outcomes + 1; }
    var retry, cleanup := b.value.retry, b.value.cleanup;
    if retry.Some? && retry.value.success { retries := retries + 1; }
    if retry.Some? && retry.value.failure { retries := retries + 1; }
    if cleanup.Some? && cleanup.value.success { cleanups := cleanups + 1; }
    if cleanup.Some? && cleanup.value.failure { cleanups := cleanups + 1; }
    var valid := b.value.exactKeys && retry.Some? && retry.value.exactKeys && cleanup.Some? && cleanup.value.exactKeys;
    return BusinessCount(outcomes, retries, cleanups, valid && outcomes == 2 && retries == 2 && cleanups == 2);
  }

  datatype AlertName = ExecutionFailure | CleanupFailure | RetryAmplification | ContractDrift | OtherAlert(text: string)

  /** An alert record with the five keys, `asExpected` when everything but the name is
      what the contract prescribes for that name; or a record of another shape. */
  datatype Alert = Alert(name: AlertName, asExpected: bool) | OtherShape

  const ALERT_NAMES: seq<AlertName> := [ExecutionFailure, CleanupFailure, RetryAmplification, ContractDrift]

  ghost predicate AlertsAsExpected(alerts: seq<Alert>) {
    |alerts| == 4 && forall n :: n in ALERT_NAMES ==> Alert(n, true) in alerts
  }

  /** Everything else the report must say, each as the checker's own comparison gives it. */
  datatype Head = Head(exactKeys: bool, schemaMatches: bool, reportsOk: bool, privacyExact: bool,
      coverageExact: bool, correlationValid: bool)
  datatype Run = Run(shapeValid: bool, durationMs: Option<nat>, eventCount: int, errorFree: bool, passed: bool)
  datatype Body = Body(
    head: Head, sourceValid: bool, events: Option<seq<Item>>, business: Option<Business>, alerts: Option<seq<Alert>>,
    metrics: Option<Metrics>, run: Option<Run>, timing: Option<Timing>)

  datatype Window = Window(
    durationMs: int, retries: int, outcomes: int, alertsOk: int, contractValid: bool,
    sequence: int, stageSuccesses: int, cleanups: int)

  ghost predicate RunValid(r: Option<Run>) {
    r.Some? && r.value.shapeValid && r.value.durationMs.Some? && r.value.eventCount == EVENT_COUNT
        && r.value.errorFree && r.value.passed
  }

  /** The full observation contract of one child run. */
  ghost predicate ContractMet(b: Body, childSucceeded: bool) {
    && childSucceeded
    && b.head == Head(true, true, true, true, true, true)
    && b.events.Some? && |b.events.value| == EVENT_COUNT
    && (forall i :: 0 <= i < EVENT_COUNT ==> EventMatches(b.events.value[i], i + 1, EXPECTED_GRAPH[i]))
    && BusinessCounts(b.business).valid
    && b.alerts.Some? && AlertsAsExpected(b.alerts.value)
    && RunValid(b.run)
    && AllValid(b.events.value) && b.metrics.Some? && IsMetrics(b.metrics.value, Events(b.events.value))
    && (forall i :: 0 <= i < EVENT_COUNT ==> TimedItem(b.events.value[i]))
    && b.timing.Some? && IsTiming(b.timing.value, Events(b.events.value), b.run.value.durationMs.value)
  }

  // ---- `_alert_count` ----

  lemma NamesInList(n: AlertName)
    ensures n in ALERT_NAMES <==>
            n == ExecutionFailure || n == CleanupFailure || n == RetryAmplification || n == ContractDrift
  {
    assert ALERT_NAMES[0] == ExecutionFailure && ALERT_NAMES[1] == CleanupFailure
        && ALERT_NAMES[2] == RetryAmplification && ALERT_NAMES[3] == ContractDrift;
  }

  /** Four records that hold the four expected alerts hold each once and nothing else. */
  lemma FourAlerts(alerts: seq<Alert>)
    requires AlertsAsExpected(alerts)
    ensures forall i :: 0 <= i < 4 ==> alerts[i].Alert? && alerts[i].name in ALERT_NAMES && alerts[i].asExpected
    ensures forall i, j :: 0 <= i < j < 4 ==> alerts[i] != alerts[j]
  {
    NamesInList(ExecutionFailure);
    NamesInList(CleanupFailure);
    NamesInList(RetryAmplification);
    NamesInList(ContractDrift);
    var a :| 0 <= a < 4 && alerts[a] == Alert(ExecutionFailure, true);
    var b :| 0 <= b < 4 && alerts[b] == Alert(CleanupFailure, true);
    var c :| 0 <= c < 4 && alerts[c] == Alert(RetryAmplification, true);
    var d :| 0 <= d < 4 && alerts[d] == Alert(ContractDrift, true);
    assert forall i :: 0 <= i < 4 ==>
        alerts[i] == alerts[a] || alerts[i] == alerts[b] || alerts[i] == alerts[c] || alerts[i] == alerts[d];
  }

  /** The first record of this name is what the contract prescribes. */
  ghost predicate FirstAsExpected(alerts: seq<Alert>, n: AlertName) {
    exists i :: 0 <= i < |alerts| && alerts[i] == Alert(n, true)
      && forall j :: 0 <= j < i && alerts[j].Alert? ==> alerts[j].name != n
  }

  /** `records` holds the first record of each known name. */
  ghost predicate Firsts(alerts: seq<Alert>, records: map<AlertName, bool>) {
    && (forall n :: n in records ==> n in ALERT_NAMES)
    && (forall n :: n in ALERT_NAMES ==> (n in records <==> exists i :: 0 <= i < |alerts| && Named(alerts[i], n)))
    && (forall n :: n in records ==> exists i :: FirstRecord(alerts, i, n, records[n]))
  }

  /** The i-th element is the first record of this name. */
  ghost predicate FirstRecord(alerts: seq<Alert>, i: int, n: AlertName, expected: bool) {
    0 <= i < |alerts| && alerts[i] == Alert(n, expected) && forall j :: 0 <= j < i ==> !Named(alerts[j], n)
  }

  predicate Named(a: Alert, n: AlertName) {
    a.Alert? && a.name == n
  }

  lemma FirstsSnoc(alerts: seq<Alert>, k: nat, records: map<AlertName, bool>)
    requires k < |alerts| && Firsts(alerts[..k], records)
    ensures var a := alerts[k];
            var known := a.Alert? && a.name in ALERT_NAMES && a.name !in records;
            Firsts(alerts[..k + 1], if known then records[a.name := a.asExpected] else records)
  {
    var before, after, a := alerts[..k], alerts[..k + 1], alerts[k];
    assert after == before + [a] && after[k] == a;
    forall n, i | 0 <= i < k && Named(before[i], n) ensures Named(after[i], n) {
    }
    forall n | n in records ensures exists i :: FirstRecord(after, i, n, records[n]) {
      var i :| FirstRecord(before, i, n, records[n]);
      assert FirstRecord(after, i, n, records[n]);
    }
    if a.Alert? && a.name in ALERT_NAMES && a.name !in records {
      assert FirstRecord(after, k, a.name, a.asExpected);
    }
  }

  lemma FirstIs(alerts: seq<Alert>, records: map<AlertName, bool>, n: AlertName)
    requires Firsts(alerts, records) && n in ALERT_NAMES
    ensures FirstAsExpected(alerts, n) <==> n in records && records[n]
  {
    assert forall k :: 0 <= k < |alerts| && alerts[k] == Alert(n, true) ==> Named(alerts[k], n);
    if n in records {
      var i :| FirstRecord(alerts, i, n, records[n]);
      if FirstAsExpected(alerts, n) {
        var k :| 0 <= k < |alerts| && alerts[k] == Alert(n, true)
          && forall j :: 0 <= j < k && alerts[j].Alert? ==> alerts[j].name != n;
        assert Named(alerts[k], n) && Named(alerts[i], n);
      }
    }
  }

  lemma CountOneMore(names: seq<AlertName>, alerts: seq<Alert>, k: nat)
    requires k < |names| && names[k] !in names[..k]
    ensures |set n | n in names[..k + 1] && FirstAsExpected(alerts, n)|
            == |set n | n in names[..k] && FirstAsExpected(alerts, n)|
               + (if FirstAsExpected(alerts, names[k]) then 1 else 0)
  {
    hide FirstAsExpected;
    var before := set n | n in names[..k] && FirstAsExpected(alerts, n);
    var after := set n | n in names[..k + 1] && FirstAsExpected(alerts, n);
    assert names[..k + 1] == names[..k] + [names[k]];
    assert after == before + (if FirstAsExpected(alerts, names[k]) then {names[k]} else {});
  }

  lemma EarlierNamesDiffer(k: nat)
    requires k < 4
    ensures ALERT_NAMES[k] !in ALERT_NAMES[..k]
  {
  }

  /** Every record has a known name that no earlier one has. */
  ghost predicate NoRepeat(alerts: seq<Alert>) {
    forall i :: 0 <= i < |alerts| && alerts[i].Alert? ==>
      alerts[i].name in ALERT_NAMES && forall j :: 0 <= j < i ==> !Named(alerts[j], alerts[i].name)
  }

  method CollectAlerts(list: seq<Alert>) returns (records: map<AlertName, bool>, duplicates: bool)
    ensures Firsts(list, records)
    ensures duplicates <==> !NoRepeat(list)
  {
    records, duplicates := map[], false;
    for k := 0 to |list|
      invariant Firsts(list[..k], records)
      invariant duplicates <==> !NoRepeat(list[..k])
    {
      FirstsSnoc(list, k, records);
      RepeatSnoc(list, k, records);
      if list[k].Alert? {
        var name := list[k].name;
        if name !in ALERT_NAMES || name in records {
          duplicates := true;
        } else {
          records := records[name := list[k].asExpected];
        }
      }
    }
    assert list[..|list|] == list;
  }

  lemma RepeatSnoc(alerts: seq<Alert>, k: nat, records: map<AlertName, bool>)
    requires k < |alerts| && Firsts(alerts[..k], records)
    ensures var a := alerts[k];
            NoRepeat(alerts[..k + 1]) <==>
              NoRepeat(alerts[..k]) && (a.Alert? ==> a.name in ALERT_NAMES && a.name !in records)
  {
    hide Named;
    var before, after := alerts[..k], alerts[..k + 1];
    assert forall i :: 0 <= i < k ==> after[i] == before[i];
    assert after[k] == alerts[k];
  }

  /** How many of the four alerts have a first record that is as expected. */
  ghost function AlertsOk(alerts: Option<seq<Alert>>): nat {
    if alerts.None? then 0 else |set n | n in ALERT_NAMES && FirstAsExpected(alerts.value, n)|
  }

  method AlertCount(alerts: Option<seq<Alert>>) returns (count: nat, valid: bool)
    ensures valid <==> alerts.Some? && AlertsAsExpected(alerts.value)
    ensures count == AlertsOk(alerts) <= 4 && (valid ==> count == 4)
  {
    hide FirstAsExpected, Firsts, NoRepeat, AlertsAsExpected;
    if alerts.None? {
      return 0, false;
    }
    var list := alerts.value;
    var records, duplicates := CollectAlerts(list);
    count := 0;
    for k := 0 to 4
      invariant count <= k && count == |set n | n in ALERT_NAMES[..k] && FirstAsExpected(list, n)|
      invariant (count == k <==> forall i :: 0 <= i < k ==> ALERT_NAMES[i] in records && records[ALERT_NAMES[i]])
    {
      EarlierNamesDiffer(k);
      CountOneMore(ALERT_NAMES, list, k);
      FirstIs(list, records, ALERT_NAMES[k]);
      if ALERT_NAMES[k] in records && records[ALERT_NAMES[k]] {
        count := count + 1;
      }
    }
    assert ALERT_NAMES[..4] == ALERT_NAMES;
    valid := !duplicates && |list| == 4 && count == 4;
    ExpectedIff(list, records);
  }

  lemma ExpectedIff(list: seq<Alert>, records: map<AlertName, bool>)
    requires Firsts(list, records)
    ensures AlertsAsExpected(list) <==>
            NoRepeat(list) && |list| == 4 && forall i :: 0 <= i < 4 ==>
                ALERT_NAMES[i] in records && records[ALERT_NAMES[i]]
  {
    hide Firsts;
    if AlertsAsExpected(list) {
      FourAlerts(list);
      forall n | n in ALERT_NAMES ensures n in records && records[n] {
        assert Alert(n, true) in list;
        ExpectedRecorded(list, records, n);
      }
    }
    if |list| == 4 && forall i :: 0 <= i < 4 ==> ALERT_NAMES[i] in records && records[ALERT_NAMES[i]] {
      forall n | n in ALERT_NAMES ensures Alert(n, true) in list {
        RecordedInList(list, records, n);
      }
    }
  }

  lemma ExpectedRecorded(list: seq<Alert>, records: map<AlertName, bool>, n: AlertName)
    requires Firsts(list, records) && n in ALERT_NAMES && Alert(n, true) in list
    requires forall i :: 0 <= i < |list| ==> list[i].Alert? && list[i].asExpected
    ensures n in records && records[n]
  {
    var i :| 0 <= i < |list| && list[i] == Alert(n, true);
    assert Named(list[i], n);
  }

  lemma RecordedInList(list: seq<Alert>, records: map<AlertName, bool>, n: AlertName)
    requires Firsts(list, records) && n in records && records[n]
    ensures Alert(n, true) in list
  {
  }

  // ---- `_normalize_observation` ----

  function ItemsOf(b: Body): seq<Item> {
    if b.events.Some? then b.events.value else []
  }

  /** None when the source binding is refused. */
  method NormalizeObservation(b: Body, durationMs: nat, childSucceeded: bool) returns (w: Option<Window>)
    ensures w.Some? <==> b.sourceValid
    ensures w.Some? ==> (w.value.contractValid <==> ContractMet(b, childSucceeded))
    ensures w.Some? ==>
            w.value.durationMs == durationMs && w.value.stageSuccesses == StageSuccesses(ItemsOf(b), EVENT_COUNT)
    ensures w.Some? ==>
            w.value.outcomes == BusinessCounts(b.business).outcomes
            && w.value.retries == BusinessCounts(b.business).retries
    ensures w.Some? ==> w.value.cleanups == BusinessCounts(b.business).cleanups
    ensures w.Some? ==> w.value.alertsOk == AlertsOk(b.alerts) <= 4 && w.value.sequence == 0
  {
    hide EventMatches, IsMetrics, IsTiming, ItemValid, TimedItem, AlertsAsExpected, Events;
    if !b.sourceValid {
      return None;
    }
    var items := ItemsOf(b);
    var successes := CountStages(items);
    AllStagesMatch(items, EVENT_COUNT);
    var business := CountBusiness(b.business);
    var alertsOk, alertsValid := AlertCount(b.alerts);
    var runValid := b.run.Some? && b.run.value.shapeValid && b.run.value.durationMs.Some?
        && b.run.value.eventCount == EVENT_COUNT
      && b.run.value.errorFree && b.run.value.passed;
    var metricsValid := false;
    if b.metrics.Some? && b.events.Some? {
      metricsValid := MetricsValid(b.metrics.value, items);
    }
    var timingValid := false;
    if b.timing.Some? && b.run.Some? && b.events.Some? {
      timingValid := ChildTimingValid(b.timing.value, items, b.run.value.durationMs);
    }
    var contractValid := childSucceeded && b.head == Head(true, true, true, true, true, true)
        && |items| == EVENT_COUNT && successes == EVENT_COUNT
      && business.valid && alertsValid && metricsValid && runValid && timingValid;
    return Some(Window(durationMs, business.retries, business.outcomes, alertsOk, contractValid, 0, successes,
        business.cleanups));
  }

  // ---- `_validated_windows` and `_evaluate_windows` ----

  const OBJECTIVE_PPM: int := 1_000_000

  predicate WindowValid(w: Window, sequence: int) {
    && w.sequence == sequence && w.durationMs >= 0
    && 0 <= w.retries <= 2 && 0 <= w.outcomes <= 2 && 0 <= w.alertsOk <= 4 && 0 <= w.stageSuccesses <= 22
        && 0 <= w.cleanups <= 2
  }

  predicate WindowsValid(windows: seq<Window>) {
    |windows| == 3 && forall i :: 0 <= i < 3 ==> WindowValid(windows[i], i + 1)
  }

  datatype Indicator = StageSuccess | BranchOutcome | RetryIntegrity | WorkspaceCleanup | ContractValid
  datatype Sli = Sli(indicator: Indicator, denominator: int, numerator: int, observedPpm: int, met: bool)
  datatype Evaluation = Evaluation(slis: seq<Sli>, breached: seq<Indicator>, ok: bool)

  const INDICATORS: seq<Indicator> := [StageSuccess, BranchOutcome, RetryIntegrity, WorkspaceCleanup, ContractValid]

  function Denominator(i: Indicator): int {
    match i
    case StageSuccess => 66
    case BranchOutcome | RetryIntegrity | WorkspaceCleanup => 6
    case ContractValid => 3
  }

  function FieldOf(i: Indicator, w: Window): int {
    match i
    case StageSuccess => w.stageSuccesses
    case BranchOutcome => w.outcomes
    case RetryIntegrity => w.retries
    case WorkspaceCleanup => w.cleanups
    case ContractValid => One(w.contractValid)
  }

  function Numerator(i: Indicator, windows: seq<Window>): int {
    if windows == [] then 0 else Numerator(i, windows[..|windows| - 1]) + FieldOf(i, windows[|windows| - 1])
  }

  /** An indicator is met when its numerator reaches its denominator, which it never
      exceeds; the parts per million say the same. */
  lemma PpmReachesObjective(i: Indicator, numerator: int)
    requires 0 <= numerator <= Denominator(i)
    ensures numerator * OBJECTIVE_PPM / Denominator(i) <= OBJECTIVE_PPM
    ensures numerator * OBJECTIVE_PPM / Denominator(i) >= OBJECTIVE_PPM <==> numerator == Denominator(i)
  {
    match i
    case StageSuccess => assert Denominator(i) == 66;
    case BranchOutcome | RetryIntegrity | WorkspaceCleanup => assert Denominator(i) == 6;
    case ContractValid => assert Denominator(i) == 3;
  }

  /** The largest value a window may report for an indicator. */
  function Bound(i: Indicator): int {
    match i
    case StageSuccess => 22
    case BranchOutcome | RetryIntegrity | WorkspaceCleanup => 2
    case ContractValid => 1
  }

  lemma NumeratorReaches(i: Indicator, windows: seq<Window>)
    requires WindowsValid(windows)
    ensures 0 <= Numerator(i, windows) <= Denominator(i)
    ensures Numerator(i, windows) == Denominator(i) <==> forall k :: 0 <= k < 3 ==> FieldOf(i, windows[k]) == Bound(i)
  {
    SumOfThree(i, windows);
    assert WindowValid(windows[0], 1) && WindowValid(windows[1], 2) && WindowValid(windows[2], 3);
  }

  predicate FullWindow(w: Window) {
    w.stageSuccesses == 22 && w.outcomes == 2 && w.retries == 2 && w.cleanups == 2 && w.contractValid
  }

  /** One service level indicator: the numbers, the floor of their ratio in parts per
      million, and whether the objective is reached. */
  predicate SliIs(s: Sli, indicator: Indicator, numerator: int, denominator: int)
    requires denominator > 0
  {
    && s.indicator == indicator && s.numerator == numerator && s.denominator == denominator
    && s.observedPpm * denominator <= numerator * 1_000_000 < (s.observedPpm + 1) * denominator
    && (s.met <==> s.observedPpm >= 1_000_000)
  }

  /** The five of them, in order, each summing its own field of the three windows. */
  predicate SlisAre(slis: seq<Sli>, w: seq<Window>)
    requires |w| == 3
  {
    && |slis| == 5
    && SliIs(slis[0], StageSuccess, w[0].stageSuccesses + w[1].stageSuccesses + w[2].stageSuccesses, 66)
    && SliIs(slis[1], BranchOutcome, w[0].outcomes + w[1].outcomes + w[2].outcomes, 6)
    && SliIs(slis[2], RetryIntegrity, w[0].retries + w[1].retries + w[2].retries, 6)
    && SliIs(slis[3], WorkspaceCleanup, w[0].cleanups + w[1].cleanups + w[2].cleanups, 6)
    && SliIs(slis[4], ContractValid, One(w[0].contractValid) + One(w[1].contractValid) + One(w[2].contractValid), 3)
  }

  lemma SumOfThree(i: Indicator, windows: seq<Window>)
    requires |windows| == 3
    ensures Numerator(i, windows) == FieldOf(i, windows[0]) + FieldOf(i, windows[1]) + FieldOf(i, windows[2])
  {
    assert windows[..2][..1] == windows[..1] && windows[..1][..0] == [];
    assert Numerator(i, windows[..1]) == FieldOf(i, windows[0]);
    assert Numerator(i, windows[..2]) == FieldOf(i, windows[0]) + FieldOf(i, windows[1]);
  }

  lemma SlisSpelled(slis: seq<Sli>, windows: seq<Window>)
    requires |windows| == 3 && |slis| == |INDICATORS|
    requires forall k :: 0 <= k < |INDICATORS| ==> Judged(slis[k], INDICATORS[k], windows)
    ensures SlisAre(slis, windows)
  {
    hide Numerator;
    SumOfThree(StageSuccess, windows);
    SumOfThree(BranchOutcome, windows);
    SumOfThree(RetryIntegrity, windows);
    SumOfThree(WorkspaceCleanup, windows);
    SumOfThree(ContractValid, windows);
    assert INDICATORS[0] == StageSuccess && INDICATORS[1] == BranchOutcome && INDICATORS[2] == RetryIntegrity;
    assert INDICATORS[3] == WorkspaceCleanup && INDICATORS[4] == ContractValid;
  }

  method EvaluateWindows(windows: seq<Window>) returns (r: Option<Evaluation>)
    ensures r.Some? <==> WindowsValid(windows)
    ensures r.Some? ==> SlisAre(r.value.slis, windows)
    ensures r.Some? ==> |r.value.slis| == |INDICATORS|
    ensures r.Some? ==> forall k :: 0 <= k < |INDICATORS| ==> Judged(r.value.slis[k], INDICATORS[k], windows)
    ensures r.Some? ==> (r.value.ok <==> forall k :: 0 <= k < 3 ==> FullWindow(windows[k]))
    ensures r.Some? ==> forall i :: i in r.value.breached <==>
            exists k :: 0 <= k < |r.value.slis| && !r.value.slis[k].met && r.value.slis[k].indicator == i
  {
    hide WindowValid, FullWindow, Numerator, Denominator, FieldOf, Bound, SlisAre, Judged;
    var valid := ValidateWindows(windows);
    if !valid {
      return None;
    }
    var slis: seq<Sli>, breached: seq<Indicator> := [], [];
    for k := 0 to |INDICATORS|
      invariant |slis| == k
      invariant forall j :: 0 <= j < k ==> Judged(slis[j], INDICATORS[j], windows)
      invariant forall i :: i in breached <==> exists j :: 0 <= j < k && !slis[j].met && slis[j].indicator == i
    {
      var indicator := INDICATORS[k];
      var sli := EvaluateIndicator(indicator, windows);
      slis := slis + [sli];
      if !sli.met {
        breached := breached + [indicator];
      }
    }
    JudgedMet(slis, windows);
    AllMet(windows, slis);
    SlisSpelled(slis, windows);
    NoneBreached(slis, breached);
    return Some(Evaluation(slis, breached, breached == []));
  }

  method EvaluateIndicator(indicator: Indicator, windows: seq<Window>) returns (sli: Sli)
    requires WindowsValid(windows)
    ensures Judged(sli, indicator, windows) && sli.indicator == indicator
  {
    hide WindowsValid, WindowValid, Numerator, Denominator;
    NumeratorReaches(indicator, windows);
    DenominatorPositive(indicator);
    var numerator, denominator := Numerator(indicator, windows), Denominator(indicator);
    PpmReachesObjective(indicator, numerator);
    var observed := numerator * OBJECTIVE_PPM / denominator;
    Floors(numerator * OBJECTIVE_PPM, denominator);
    return Sli(indicator, denominator, numerator, observed, observed >= OBJECTIVE_PPM);
  }

  lemma JudgedMet(slis: seq<Sli>, windows: seq<Window>)
    requires |slis| == |INDICATORS|
    requires forall k :: 0 <= k < |INDICATORS| ==> Judged(slis[k], INDICATORS[k], windows)
    ensures forall k :: 0 <= k < |INDICATORS| ==>
              slis[k].indicator == INDICATORS[k]
                  && (slis[k].met <==> Numerator(INDICATORS[k], windows) == Denominator(INDICATORS[k]))
  {
    hide Numerator, Denominator;
  }

  lemma NoneBreached(slis: seq<Sli>, breached: seq<Indicator>)
    requires forall i :: i in breached <==> exists k :: 0 <= k < |slis| && !slis[k].met && slis[k].indicator == i
    ensures breached == [] <==> forall k :: 0 <= k < |slis| ==> slis[k].met
  {
    if breached == [] {
      forall k | 0 <= k < |slis| ensures slis[k].met {
        assert slis[k].indicator !in breached;
      }
    } else {
      assert breached[0] in breached;
    }
  }

  /** The indicator's own numbers, never above the objective, which only a full count reaches. */
  predicate Judged(s: Sli, indicator: Indicator, windows: seq<Window>) {
    && Denominator(indicator) > 0 && SliIs(s, indicator, Numerator(indicator, windows), Denominator(indicator))
    && 0 <= s.observedPpm <= OBJECTIVE_PPM && (s.met <==> s.numerator == s.denominator)
    && (s.met <==> s.observedPpm == OBJECTIVE_PPM)
  }

  lemma Floors(a: int, b: int)
    requires b > 0
    ensures a / b * b <= a < (a / b + 1) * b
  {
  }

  method ValidateWindows(windows: seq<Window>) returns (ok: bool)
    ensures ok <==> WindowsValid(windows)
  {
    if |windows| != 3 {
      return false;
    }
    for k := 0 to 3
      invariant forall i :: 0 <= i < k ==> WindowValid(windows[i], i + 1)
    {
      var w := windows[k];
      if w.sequence != k + 1 || w.durationMs < 0 || w.retries < 0 || w.retries > 2 || w.outcomes < 0 || w.outcomes > 2
          || w.alertsOk < 0 || w.alertsOk > 4 || w.stageSuccesses < 0 || w.stageSuccesses > 22 || w.cleanups < 0
          || w.cleanups > 2 {
        assert !WindowValid(w, k + 1);
        return false;
      }
    }
    return true;
  }

  lemma DenominatorPositive(i: Indicator)
    ensures Denominator(i) > 0
  {
  }

  lemma AllMet(windows: seq<Window>, slis: seq<Sli>)
    requires WindowsValid(windows) && |slis| == |INDICATORS|
    requires forall k :: 0 <= k < |INDICATORS| ==>
               slis[k].indicator == INDICATORS[k]
                   && (slis[k].met <==> Numerator(INDICATORS[k], windows) == Denominator(INDICATORS[k]))
    ensures (forall k :: 0 <= k < |slis| ==> slis[k].met) <==> forall k :: 0 <= k < 3 ==> FullWindow(windows[k])
  {
    hide WindowValid, Numerator, Denominator;
    NumeratorReaches(StageSuccess, windows);
    NumeratorReaches(BranchOutcome, windows);
    NumeratorReaches(RetryIntegrity, windows);
    NumeratorReaches(WorkspaceCleanup, windows);
    NumeratorReaches(ContractValid, windows);
    assert INDICATORS[0] == StageSuccess && INDICATORS[1] == BranchOutcome && INDICATORS[2] == RetryIntegrity;
    assert INDICATORS[3] == WorkspaceCleanup && INDICATORS[4] == ContractValid;
    assert slis[0].met <==> forall k :: 0 <= k < 3 ==> FieldOf(StageSuccess, windows[k]) == 22;
    assert slis[1].met <==> forall k :: 0 <= k < 3 ==> FieldOf(BranchOutcome, windows[k]) == 2;
    assert slis[2].met <==> forall k :: 0 <= k < 3 ==> FieldOf(RetryIntegrity, windows[k]) == 2;
    assert slis[3].met <==> forall k :: 0 <= k < 3 ==> FieldOf(WorkspaceCleanup, windows[k]) == 2;
    assert slis[4].met <==> forall k :: 0 <= k < 3 ==> FieldOf(ContractValid, windows[k]) == 1;
    forall k | 0 <= k < 3
      ensures FullWindow(windows[k]) <==>
                FieldOf(StageSuccess, windows[k]) == 22 && FieldOf(BranchOutcome, windows[k]) == 2
                    && FieldOf(RetryIntegrity, windows[k]) == 2
                && FieldOf(WorkspaceCleanup, windows[k]) == 2 && FieldOf(ContractValid, windows[k]) == 1
    {
    }
  }

  // ---- the acceptance verdict ----

  /** The contract forces all 22 stages in order and 2/2/2 business counts. */
  lemma ContractForcesCounts(b: Body, childSucceeded: bool)
    requires ContractMet(b, childSucceeded)
    ensures StageSuccesses(ItemsOf(b), EVENT_COUNT) == 22
    ensures var c := BusinessCounts(b.business); c.outcomes == 2 && c.retries == 2 && c.cleanups == 2
  {
    hide EventMatches, IsMetrics, IsTiming, ItemValid, TimedItem, AlertsAsExpected;
    AllStagesMatch(ItemsOf(b), EVENT_COUNT);
  }

  /** Three child runs are accepted exactly when each of them meets the whole contract. */
  method Accept(bodies: seq<Body>, durations: seq<nat>, succeeded: seq<bool>) returns (r: Option<Evaluation>)
    requires |bodies| == |durations| == |succeeded| == 3
    ensures r.Some? <==> forall i :: 0 <= i < 3 ==> bodies[i].sourceValid
    ensures r.Some? ==> (r.value.ok <==> forall i :: 0 <= i < 3 ==> ContractMet(bodies[i], succeeded[i]))
  {
    hide ContractMet, StageSuccesses, BusinessCounts, Numerator, Denominator;
    var windows: seq<Window> := [];
    for i := 0 to 3
      invariant |windows| == i && forall k :: 0 <= k < i ==> bodies[k].sourceValid && WindowValid(windows[k], k + 1)
      invariant forall k :: 0 <= k < i ==> (FullWindow(windows[k]) <==> ContractMet(bodies[k], succeeded[k]))
    {
      var w := NormalizeObservation(bodies[i], durations[i], succeeded[i]);
      if w.None? {
        return None;
      }
      CountsBounded(bodies[i]);
      if ContractMet(bodies[i], succeeded[i]) {
        ContractForcesCounts(bodies[i], succeeded[i]);
      }
      windows := windows + [w.value.(sequence := i + 1)];
    }
    r := EvaluateWindows(windows);
  }

  lemma CountsBounded(b: Body)
    ensures 0 <= StageSuccesses(ItemsOf(b), EVENT_COUNT) <= 22
    ensures var c := BusinessCounts(b.business); c.outcomes <= 2 && c.retries <= 2 && c.cleanups <= 2
  {
  }
}
