/** The bounded recorder of child commands
    (tools/local-stack/run_observability_demo.py:382-525). */
module Recorder {
  import opened Basics
  import opened Observability

  const MAX_EVENTS: nat := 24
  const NANOS_PER_MILLI: int := 1_000_000

  datatype Violation =
    | EventBudgetInvalid | ClockFailed | ClockInvalid | ClockRegression
    | UnknownCommandGraph | EventBudgetExceeded | EventGraphDrift

  /** What the clock returns when asked. */
  datatype Reading = Ticks(ns: int) | ClockRaised | NotAnInteger

  /** What the wrapped runner does: returns, raises an `Exception`, or ends in something
      else (an interrupt), which passes through without being recorded. */
  datatype Delegate = Completed(clean: bool) | Raised | Interrupted

  datatype Slot = Slot(stage: string, branch: string)

  predicate IsChildStage(stage: string) {
    stage in STAGES && stage != "run_finalize"
  }

  /** The pair the stage mapper gives, when it is one of the fixed graph's. */
  predicate Known(descriptor: Option<Slot>) {
    descriptor.Some? && IsChildStage(descriptor.value.stage) && KnownBranch(descriptor.value.branch)
  }

  function SlotOf(e: Event): Slot {
    Slot(e.stage, e.branch)
  }

  function Attempts(counter: map<Slot, nat>, slot: Slot): nat {
    if slot in counter then counter[slot] else 0
  }

  function ReadingViolation(r: Reading): set<Violation> {
    match r case Ticks(_) => {} case ClockRaised => {ClockFailed} case NotAnInteger => {ClockInvalid}
  }

  predicate Measurable(start: Reading, finish: Reading) {
    start.Ticks? && finish.Ticks? && finish.ns >= start.ns
  }

  function DurationOf(start: Reading, finish: Reading): (ms: int)
    ensures ms >= 0 && (!Measurable(start, finish) ==> ms == 0)
    ensures Measurable(start, finish) ==> ms * NANOS_PER_MILLI <= finish.ns - start.ns < (ms + 1) * NANOS_PER_MILLI
  {
    if Measurable(start, finish) then (finish.ns - start.ns) / NANOS_PER_MILLI else 0
  }

  /** The attempts recorded for each stage and branch are 1, 2, 3 and so on, in order. */
  ghost predicate Gapless(events: seq<Event>) {
    forall i :: 0 <= i < |events| ==> events[i].attempt == Count(events[..i + 1], SlotOf, SlotOf(events[i]))
  }

  ghost predicate Sequenced(events: seq<Event>) {
    forall i :: 0 <= i < |events| ==> events[i].sequence == i + 1
  }

  lemma SlotIs(e: Event)
    ensures SlotOf(e) == Slot(e.stage, e.branch)
  {
  }

  lemma CountSnoc(events: seq<Event>, e: Event, slot: Slot)
    ensures Count(events + [e], SlotOf, slot) == Count(events, SlotOf, slot) + (if SlotOf(e) == slot then 1 else 0)
  {
    hide SlotOf;
    assert (events + [e])[..|events|] == events && (events + [e])[..|events| + 1] == events + [e];
    Snoc(events + [e], |events|, SlotOf, slot);
  }

  lemma GaplessSnoc(events: seq<Event>, e: Event)
    requires Gapless(events) && Sequenced(events)
    requires e.attempt == Count(events, SlotOf, SlotOf(e)) + 1 && e.sequence == |events| + 1
    ensures Gapless(events + [e]) && Sequenced(events + [e])
  {
    hide Count, SlotOf;
    var all := events + [e];
    CountSnoc(events, e, SlotOf(e));
    forall i | 0 <= i < |all| ensures all[i].attempt == Count(all[..i + 1], SlotOf, SlotOf(all[i])) {
      if i < |events| {
        assert all[..i + 1] == events[..i + 1];
      } else {
        assert all[..i + 1] == all;
      }
    }
  }

  // ---- the graph of a log and the calls behind it ----

  /** `_EXPECTED_CHILD_GRAPH`. */
  const CHILD_GRAPH: seq<(Slot, int)> := [
    (Slot("source_revision", "none"), 1), (Slot("source_cleanliness", "none"), 1), (Slot("preflight", "none"), 1),
    (Slot("workspace_init", "success"), 1), (Slot("workspace_status", "success"), 1),
    (Slot("governance_preview", "success"), 1), (Slot("approval_execute", "success"), 1),
    (Slot("terminal_verify", "success"), 1), (Slot("approval_execute", "success"), 2),
    (Slot("terminal_verify", "success"), 2), (Slot("workspace_init", "failure"), 1),
    (Slot("workspace_status", "failure"), 1), (Slot("governance_preview", "failure"), 1),
    (Slot("approval_execute", "failure"), 1), (Slot("terminal_verify", "failure"), 1),
    (Slot("approval_execute", "failure"), 2), (Slot("terminal_verify", "failure"), 2),
    (Slot("workspace_cleanup", "success"), 1), (Slot("workspace_cleanup", "failure"), 1),
    (Slot("source_revision", "none"), 2), (Slot("source_cleanliness", "none"), 2)]

  function GraphOf(events: seq<Event>): (graph: seq<(Slot, int)>)
    ensures |graph| == |events|
  {
    seq(|events|, i requires 0 <= i < |events| => (SlotOf(events[i]), events[i].attempt))
  }

  /** The calls that would give this log. */
  function Asked(events: seq<Event>): (asked: seq<Option<Slot>>)
    ensures |asked| == |events|
  {
    seq(|events|, i requires 0 <= i < |events| => Some(SlotOf(events[i])))
  }

  function Slots(graph: seq<(Slot, int)>): (slots: seq<Option<Slot>>)
    ensures |slots| == |graph|
  {
    seq(|graph|, i requires 0 <= i < |graph| => Some(graph[i].0))
  }

  function Times(slots: seq<Option<Slot>>, slot: Slot): nat {
    if slots == [] then 0
    else Times(slots[..|slots| - 1], slot) + (if slots[|slots| - 1] == Some(slot) then 1 else 0)
  }

  /** Every entry of the graph carries how often its pair has come up so far. */
  ghost predicate Numbered(graph: seq<(Slot, int)>) {
    forall i :: 0 <= i < |graph| ==> graph[i].1 == Times(Slots(graph)[..i + 1], graph[i].0)
  }

  lemma {:induction false} CountIsTimes(events: seq<Event>, slot: Slot)
    ensures Count(events, SlotOf, slot) == Times(Asked(events), slot)
  {
    if events != [] {
      var k := |events| - 1;
      CountIsTimes(events[..k], slot);
      assert Asked(events)[..k] == Asked(events[..k]);
    }
  }

  /** A gapless log has this graph exactly when its calls are those of the graph and the
      graph is numbered as they come. */
  lemma GraphIsCalls(events: seq<Event>, graph: seq<(Slot, int)>)
    requires Gapless(events)
    ensures GraphOf(events) == graph <==> Asked(events) == Slots(graph) && Numbered(graph)
  {
    hide Count, Times, SlotOf;
    forall i | 0 <= i < |events| ensures events[i].attempt == Times(Asked(events)[..i + 1], SlotOf(events[i])) {
      CountIsTimes(events[..i + 1], SlotOf(events[i]));
      assert Asked(events)[..i + 1] == Asked(events[..i + 1]);
    }
    if GraphOf(events) == graph {
      assert Asked(events) == Slots(graph);
      forall i | 0 <= i < |graph| ensures graph[i].1 == Times(Slots(graph)[..i + 1], graph[i].0) {
        assert graph[i] == GraphOf(events)[i];
      }
    }
    if Asked(events) == Slots(graph) && Numbered(graph) {
      forall i | 0 <= i < |graph| ensures GraphOf(events)[i] == graph[i] {
        assert Asked(events)[i] == Slots(graph)[i];
      }
    }
  }

  class RecordingRunner {
    var events: seq<Event>
    var violations: set<Violation>
    var attempts: map<Slot, nat>
    const eventLimit: nat
    ghost var asked: seq<Option<Slot>>   // what each child call that came back was mapped to
    ghost var finalized: nat             // finalize events so far

    /** Before the run is finalized: the log is short, numbered and gapless, the counter
        covers it, and a log without violations is exactly the calls that came back, in order. */
    ghost predicate Valid()
      reads this
    {
      && 1 <= eventLimit <= MAX_EVENTS && finalized == 0
      && |events| <= eventLimit - 1
      && Sequenced(events) && Gapless(events)
      && (forall i :: 0 <= i < |events| ==> IsChildStage(events[i].stage) && KnownBranch(events[i].branch))
      && (forall i :: 0 <= i < |events| ==> LabelValid(LabelOf(events[i])) && events[i].durationMs >= 0)
      && (|events| < eventLimit - 1 ==> forall slot :: Attempts(attempts, slot) == Count(events, SlotOf, slot))
      && |events| <= |asked|
      && (violations == {} ==> Asked(events) == asked)
    }

    constructor (limit: int)
      ensures Valid() && events == [] && asked == []
      ensures eventLimit == (if limit < 1 then 1 else if limit > MAX_EVENTS then MAX_EVENTS else limit)
      ensures violations == (if 1 <= limit <= MAX_EVENTS then {} else {EventBudgetInvalid})
    {
      var atLeast := if limit < 1 then 1 else limit;
      eventLimit := if atLeast < MAX_EVENTS then atLeast else MAX_EVENTS;
      events, attempts, asked, finalized := [], map[], [], 0;
      violations := if 1 <= limit <= MAX_EVENTS then {} else {EventBudgetInvalid};
    }

    /** `_append_child`. */
    method AppendChild(descriptor: Option<Slot>, durationMs: int, succeeded: bool)
      requires Valid() && durationMs >= 0
      modifies this`events, this`violations, this`attempts, this`asked
      ensures Valid() && asked == old(asked) + [descriptor]
      ensures !Known(descriptor) ==>
              events == old(events) && violations == old(violations) + {UnknownCommandGraph}
              && attempts == old(attempts)
      ensures Known(descriptor) && |old(events)| == eventLimit - 1 ==>
              events == old(events) && violations == old(violations) + {EventBudgetExceeded}
      ensures Known(descriptor) ==>
              attempts == old(attempts)[descriptor.value := Attempts(old(attempts), descriptor.value) + 1]
      ensures Known(descriptor) && |old(events)| < eventLimit - 1 ==> violations == old(violations)
      ensures Known(descriptor) && |old(events)| < eventLimit - 1 ==>
                events == old(events) + [Event(Count(old(events), SlotOf, descriptor.value) + 1,
                    descriptor.value.branch, durationMs,
                     if succeeded then "NONE" else "EXECUTION", if succeeded then "SUCCEEDED" else "FAILED",
                         |old(events)| + 1, descriptor.value.stage)]
    {
      hide Gapless, Sequenced, Count, IsChildStage, KnownBranch, LabelValid, LabelOf, SlotOf;
      asked := asked + [descriptor];
      var known := CheckDescriptor(descriptor);
      if !known {
        violations := violations + {UnknownCommandGraph};
        return;
      }
      var slot := descriptor.value;
      attempts := attempts[slot := Attempts(attempts, slot) + 1];
      if |events| >= eventLimit - 1 {
        violations := violations + {EventBudgetExceeded};
        return;
      }
      var e := Event(attempts[slot], slot.branch, durationMs, if succeeded then "NONE" else "EXECUTION",
                     if succeeded then "SUCCEEDED" else "FAILED", |events| + 1, slot.stage);
      assert SlotOf(e) == slot by { SlotIs(e); }
      GaplessSnoc(events, e);
      forall other ensures Count(events + [e], SlotOf, other) == Count(events, SlotOf,
          other) + (if SlotOf(e) == other then 1 else 0) {
        CountSnoc(events, e, other);
      }
      ChildLabelValid(e);
      events := events + [e];
    }

    /** One observed child command: the delegate's result is passed through untouched. */
    method Call(descriptor: Option<Slot>, start: Reading, finish: Reading, delegate: Delegate)
      returns (result: Delegate)
      requires Valid()
      modifies this`events, this`violations, this`attempts, this`asked
      ensures Valid() && result == delegate
      ensures delegate.Interrupted? ==> events == old(events) && attempts == old(attempts) && asked == old(asked)
      ensures delegate.Interrupted? ==> violations == old(violations) + ReadingViolation(start)
      ensures !delegate.Interrupted? ==> asked == old(asked) + [descriptor]
      ensures !delegate.Interrupted? ==>
                violations == old(violations) + ReadingViolation(start) + ReadingViolation(finish)
                  + (if Measurable(start, finish) then {} else {ClockRegression})
                  + (if !Known(descriptor) then {UnknownCommandGraph}
                     else if |old(events)| == eventLimit - 1 then {EventBudgetExceeded}
                     else {})
      ensures if !delegate.Interrupted? && Known(descriptor) && |old(events)| < eventLimit - 1
              then events == old(events) + [Event(Count(old(events), SlotOf, descriptor.value) + 1,
                       descriptor.value.branch, DurationOf(start, finish),
                       if delegate == Completed(true) then "NONE" else "EXECUTION",
                       if delegate == Completed(true) then "SUCCEEDED" else "FAILED",
                       |old(events)| + 1, descriptor.value.stage)]
              else events == old(events)
      ensures !delegate.Interrupted? ==>
              attempts == if !Known(descriptor) then old(attempts)
                          else old(attempts)[descriptor.value := Attempts(old(attempts), descriptor.value) + 1]
    {
      hide Gapless, Sequenced, Count, IsChildStage, KnownBranch, DurationOf, Known, LabelValid;
      violations := violations + ReadingViolation(start);
      if delegate.Interrupted? {
        return delegate;
      }
      violations := violations + ReadingViolation(finish);
      if !start.Ticks? || !finish.Ticks? || finish.ns < start.ns {
        violations := violations + {ClockRegression};
      }
      AppendChild(descriptor, DurationOf(start, finish), delegate == Completed(true));
      return delegate;
    }

    /** `validate_success_graph`. */
    method ValidateGraph(expected: seq<(Slot, int)>)
      requires Valid()
      modifies this`violations
      ensures Valid()
      ensures violations == old(violations) + (if Observed() == expected then {} else {EventGraphDrift})
      ensures violations == {} <==> old(violations) == {} && asked == Slots(expected) && Numbered(expected)
    {
      hide Count, Times, SlotOf, IsChildStage, KnownBranch, LabelValid, LabelOf, Sequenced;
      GraphIsCalls(events, expected);
      if Observed() != expected {
        violations := violations + {EventGraphDrift};
      }
    }

    function Observed(): (graph: seq<(Slot, int)>)
      reads this
    {
      GraphOf(events)
    }

    /** `add_finalize`. The overflow branch exists for a log that is already full; after
        any number of child calls it is not taken. */
    method AddFinalize(durationMs: int, outcome: string, errorClass: string)
      requires 1 <= eventLimit <= MAX_EVENTS && |events| <= eventLimit && Sequenced(events)
      modifies this`events, this`violations, this`finalized
      ensures finalized == old(finalized) + 1
      ensures 1 <= |events| <= eventLimit && Sequenced(events)
      ensures events[|events| - 1] == Event(1, "none", durationMs, errorClass, outcome, |events|, "run_finalize")
      ensures old(Valid()) ==> violations == old(violations) && events[..|events| - 1] == old(events) && Gapless(events)
      ensures |old(events)| == eventLimit <==> |events| == |old(events)|
      ensures |old(events)| == eventLimit ==> EventBudgetExceeded in violations
    {
      ghost var before := events;
      if |events| >= eventLimit {
        violations := violations + {EventBudgetExceeded};
        if events != [] {
          events := events[..eventLimit - 1];
        }
      }
      var e := Event(1, "none", durationMs, errorClass, outcome, |events| + 1, "run_finalize");
      if old(Valid()) {
        NoFinalizeYet(events);
        GaplessSnoc(events, e);
      }
      events := events + [e];
      finalized := finalized + 1;
    }
  }

  method CheckDescriptor(descriptor: Option<Slot>) returns (known: bool)
    ensures known <==> Known(descriptor)
  {
    KnownSpelled(descriptor);
    if descriptor.None? {
      return false;
    }
    var slot := descriptor.value;
    return slot.stage in STAGES && slot.stage != "run_finalize" && slot.branch in BRANCHES;
  }

  lemma KnownSpelled(descriptor: Option<Slot>)
    ensures Known(descriptor) <==>
            descriptor.Some? && descriptor.value.stage in STAGES && descriptor.value.stage != "run_finalize"
            && descriptor.value.branch in BRANCHES
  {
  }

  lemma ChildLabelValid(e: Event)
    requires IsChildStage(e.stage) && KnownBranch(e.branch)
    requires (e.errorClass == "NONE" && e.outcome == "SUCCEEDED")
        || (e.errorClass == "EXECUTION" && e.outcome == "FAILED")
    ensures LabelValid(LabelOf(e))
  {
    assert ERROR_CLASSES[0] == "NONE" && ERROR_CLASSES[2] == "EXECUTION";
    assert OUTCOMES[0] == "SUCCEEDED" && OUTCOMES[1] == "FAILED";
  }

  lemma {:induction false} NoFinalizeYet(events: seq<Event>)
    requires forall i :: 0 <= i < |events| ==> events[i].stage != "run_finalize"
    ensures Count(events, SlotOf, Slot("run_finalize", "none")) == 0
  {
    if events != [] {
      NoFinalizeYet(events[..|events| - 1]);
    }
  }
}
