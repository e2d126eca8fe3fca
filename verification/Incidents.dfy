/** One open incident per fault, under concurrent events in one process
    (logservices/faultservice/src/main.py:63-138, correlate.py:19-48,
    fault_client.py:128-140, incidentdb.py:103-148). */
module Incidents {
  import opened Basics

  /** A log entry: its `python_logger` label and its payload fields. */
  datatype Event = Event(logger: string, payload: map<string, string>)

  datatype Kind = Health | ServiceError
  datatype Fault = Fault(kind: Kind, first: string, second: string)

  const HEALTH := "UERANSIMHEALTH"
  const SERVICE_ERROR := "CRITICALSERVICEERROR"
  const INCIDENT_ID := "incident_id"

  function LoggerOf(k: Kind): string {
    match k case Health => HEALTH case ServiceError => SERVICE_ERROR
  }

  function FirstField(k: Kind): string {
    match k case Health => "process_name" case ServiceError => "node"
  }

  function SecondField(k: Kind): string {
    match k case Health => "hostname" case ServiceError => "userid"
  }

  /** `payload.get(field)`; a missing field and an empty one are both falsy. */
  function Field(payload: map<string, string>, name: string): string {
    if name in payload then payload[name] else ""
  }

  function PairOf(k: Kind, payload: map<string, string>): Option<Fault> {
    var a, b := Field(payload, FirstField(k)), Field(payload, SecondField(k));
    if a != "" && b != "" then Some(Fault(k, a, b)) else None
  }

  /** The fault an event reports, if it is of a known kind and complete. */
  function FaultOf(e: Event): Option<Fault> {
    if e.logger == HEALTH then PairOf(Health, e.payload)
    else if e.logger == SERVICE_ERROR then PairOf(ServiceError, e.payload)
    else None
  }

  /** `get_correlation_key`. */
  function CorrelationKey(e: Event): Option<string> {
    var f := FaultOf(e);
    if f.None? then None
    else Some(LoggerOf(f.value.kind) + ":" + f.value.first + ":" + f.value.second)
  }

  // ---- the fields by name ----

  predicate Holds(payload: map<string, string>, name: string, value: string) {
    value != "" && name in payload && payload[name] == value
  }

  /** An event of this logger whose two fields have these values. */
  predicate Reports(e: Event, logger: string, first: string, a: string, second: string, b: string) {
    e.logger == logger && Holds(e.payload, first, a) && Holds(e.payload, second, b)
  }

  predicate ReportsHealth(e: Event, process: string, host: string) {
    Reports(e, "UERANSIMHEALTH", "process_name", process, "hostname", host)
  }

  predicate ReportsServiceError(e: Event, node: string, user: string) {
    Reports(e, "CRITICALSERVICEERROR", "node", node, "userid", user)
  }

  /** Which fault an event reports, read back from its fields. */
  lemma FaultSpelled(e: Event, a: string, b: string)
    ensures FaultOf(e) == Some(Fault(Health, a, b)) <==> ReportsHealth(e, a, b)
    ensures FaultOf(e) == Some(Fault(ServiceError, a, b)) <==> ReportsServiceError(e, a, b)
  {
    assert |"UERANSIMHEALTH"| != |"CRITICALSERVICEERROR"|;
  }

  /** The key holds the logger and both values, separated by colons. */
  lemma KeySpelled(e: Event, a: string, b: string)
    ensures ReportsHealth(e, a, b) ==> CorrelationKey(e) == Some("UERANSIMHEALTH:" + a + ":" + b)
    ensures ReportsServiceError(e, a, b) ==> CorrelationKey(e) == Some("CRITICALSERVICEERROR:" + a + ":" + b)
    ensures CorrelationKey(e).None? <==> forall x, y :: !ReportsHealth(e, x, y) && !ReportsServiceError(e, x, y)
  {
    hide FaultOf, ReportsHealth, ReportsServiceError;
    FaultSpelled(e, a, b);
    assert HEALTH + ":" == "UERANSIMHEALTH:" && SERVICE_ERROR + ":" == "CRITICALSERVICEERROR:";
    forall x, y ensures CorrelationKey(e).None? ==> !ReportsHealth(e, x, y) && !ReportsServiceError(e, x, y) {
      FaultSpelled(e, x, y);
    }
    if FaultOf(e).Some? {
      SomeFault(e);
    }
  }

  /** Two events report one fault exactly when their kind and both values agree. */
  lemma SameFaultIff(a: Event, b: Event)
    requires FaultOf(a).Some? && FaultOf(b).Some?
    ensures FaultOf(a) == FaultOf(b) <==>
            (exists x, y :: ReportsHealth(a, x, y) && ReportsHealth(b, x, y))
            || (exists x, y :: ReportsServiceError(a, x, y) && ReportsServiceError(b, x, y))
  {
    hide FaultOf, ReportsHealth, ReportsServiceError;
    SomeFault(a);
    SomeFault(b);
    forall x, y
      ensures FaultOf(a) == Some(Fault(Health, x, y)) <==> ReportsHealth(a, x, y)
      ensures FaultOf(b) == Some(Fault(Health, x, y)) <==> ReportsHealth(b, x, y)
      ensures FaultOf(a) == Some(Fault(ServiceError, x, y)) <==> ReportsServiceError(a, x, y)
      ensures FaultOf(b) == Some(Fault(ServiceError, x, y)) <==> ReportsServiceError(b, x, y)
    {
      FaultSpelled(a, x, y);
      FaultSpelled(b, x, y);
    }
    var f := FaultOf(a).value;
    if FaultOf(a) == FaultOf(b) {
      assert (ReportsHealth(a, f.first, f.second) && ReportsHealth(b, f.first, f.second))
          || (ReportsServiceError(a, f.first, f.second) && ReportsServiceError(b, f.first, f.second));
    }
  }

  lemma SomeFault(e: Event)
    requires FaultOf(e).Some?
    ensures var f := FaultOf(e).value;
            f == Fault(Health, f.first, f.second) || f == Fault(ServiceError, f.first, f.second)
    ensures var f := FaultOf(e).value; ReportsHealth(e, f.first, f.second) || ReportsServiceError(e, f.first, f.second)
  {
    hide FaultOf, ReportsHealth, ReportsServiceError;
    var f := FaultOf(e).value;
    match f.kind {
      case Health => assert f == Fault(Health, f.first, f.second);
      case ServiceError => assert f == Fault(ServiceError, f.first, f.second);
    }
    FaultSpelled(e, f.first, f.second);
  }

  /** Different faults can share a key: the separator may occur in a value. */
  lemma KeysCollide()
    ensures var a := Event(HEALTH, map["process_name" := "x:y", "hostname" := "z"]);
            var b := Event(HEALTH, map["process_name" := "x", "hostname" := "y:z"]);
            FaultOf(a) != FaultOf(b) && CorrelationKey(a).Some? && CorrelationKey(a) == CorrelationKey(b)
  {
    var a := Event(HEALTH, map["process_name" := "x:y", "hostname" := "z"]);
    var b := Event(HEALTH, map["process_name" := "x", "hostname" := "y:z"]);
    assert FaultOf(a) == Some(Fault(Health, "x:y", "z"));
    assert FaultOf(b) == Some(Fault(Health, "x", "y:z"));
    assert HEALTH + ":" + "x:y" + ":" + "z" == HEALTH + ":" + "x" + ":" + "y:z";
  }

  lemma EqualFaultsEqualKeys(a: Event, b: Event)
    requires FaultOf(a) == FaultOf(b)
    ensures CorrelationKey(a) == CorrelationKey(b)
  {
  }

  // ---- the lock map ----

  type LockId = nat

  /** `correlation_locks`: the lock of each key asked for so far. */
  type Locks = map<string, LockId>

  /** The map after asking for `key`: a lock is added when there is none. */
  function WithLock(locks: Locks, key: string): (r: Locks)
    ensures key in r && forall k :: k in locks ==> k in r && r[k] == locks[k]
  {
    if key in locks then locks else locks[key := |locks|]
  }

  class LockRegistry {
    var locks: Locks

    constructor ()
      ensures locks == map[]
    {
      locks := map[];
    }

    /** `get_lock_for_key`: no lock is ever replaced, so equal keys get one lock. */
    method GetLockForKey(key: string) returns (lock: LockId)
      modifies this
      ensures locks == WithLock(old(locks), key) && lock == locks[key]
      ensures forall k :: k in old(locks) ==> k in locks && locks[k] == old(locks)[k]
    {
      if key !in locks {
        locks := locks[key := |locks|];
      }
      return locks[key];
    }
  }

  // ---- the incident table ----

  /** `cause` is the fault the creating event reported, kept only for the statement. */
  datatype Incident = Incident(issue: map<string, string>, unresolved: bool, cause: Option<Fault>)
  type Table = map<string, Incident>

  predicate Matches(i: Incident, f: Fault) {
    i.unresolved && Field(i.issue, FirstField(f.kind)) == f.first && Field(i.issue, SecondField(f.kind)) == f.second
  }

  /** `get_incident_by_issue`. */
  predicate OpenIncident(t: Table, f: Fault) {
    exists id :: id in t && Matches(t[id], f)
  }

  /** An unresolved incident whose issue has these values in these fields. */
  predicate OpenRow(t: Table, first: string, a: string, second: string, b: string) {
    exists id :: id in t && t[id].unresolved && Holds(t[id].issue, first, a) && Holds(t[id].issue, second, b)
  }

  lemma OpenSpelled(t: Table, a: string, b: string)
    requires a != "" && b != ""
    ensures OpenIncident(t, Fault(Health, a, b)) <==> OpenRow(t, "process_name", a, "hostname", b)
    ensures OpenIncident(t, Fault(ServiceError, a, b)) <==> OpenRow(t, "node", a, "userid", b)
  {
    forall id | id in t
      ensures Matches(t[id], Fault(Health, a, b)) <==>
              t[id].unresolved && Holds(t[id].issue, "process_name", a) && Holds(t[id].issue, "hostname", b)
      ensures Matches(t[id], Fault(ServiceError, a, b)) <==>
              t[id].unresolved && Holds(t[id].issue, "node", a) && Holds(t[id].issue, "userid", b)
    {
    }
  }

  /** The table with a new incident under `id`. */
  predicate Adds(t: Table, t': Table, id: string, e: Event) {
    && t'.Keys == t.Keys + {id} && (forall k :: k in t && k != id ==> t'[k] == t[k])
    && t'[id].unresolved && t'[id].issue == e.payload["incident_id" := id]
  }

  function Created(t: Table, id: string, e: Event): Table {
    t[id := Incident(e.payload[INCIDENT_ID := id], true, FaultOf(e))]
  }

  class IncidentTable {
    var rows: Table

    constructor ()
      ensures rows == map[]
    {
      rows := map[];
    }

    /** `create_incident`, under an identifier drawn for it. */
    method CreateIncident(e: Event, id: string, fails: bool) returns (task: Option<string>)
      modifies this
      ensures if fails then task.None? && rows == old(rows) else task == Some(id) && rows == Created(old(rows), id, e)
      ensures task.Some? && FaultOf(e).Some? ==> OpenIncident(rows, FaultOf(e).value)
    {
      if fails {
        return None;
      }
      rows := Created(rows, id, e);
      if FaultOf(e).Some? {
        CreatedMatches(rows, id, e);
      }
      return Some(id);
    }

    /** `get_incident_by_issue`; an error is reported as nothing found. */
    method GetIncidentByIssue(f: Fault, errors: bool) returns (found: bool)
      ensures found <==> !errors && OpenIncident(rows, f)
      ensures CauseInv(rows) && !found && !errors ==> NoneOpen(rows, f)
    {
      if errors {
        return false;
      }
      found := exists id :: id in rows && Matches(rows[id], f);
    }

    /** What `process_fault_event` does once it has the lock: `correlate_incident`, then
        `send_incident_to_resolver` unless an open incident was found. */
    method ProcessFaultEvent(e: Event, id: string, errors: bool, fails: bool)
      requires CauseInv(rows) && OneOpen(rows) && id !in rows
      modifies this
      ensures rows == Processed(old(rows), e, id, errors, fails)
      ensures CauseInv(rows)
      ensures OneOpen(rows) <==> !errors || fails || FaultOf(e).None? || NoneOpen(old(rows), FaultOf(e).value)
      ensures fails ==> rows == old(rows)
      ensures forall a, b :: ReportsHealth(e, a, b) && !errors && !fails ==>
                if OpenRow(old(rows), "process_name", a, "hostname", b) then rows == old(rows)
                else Adds(old(rows), rows, id, e)
      ensures forall a, b :: ReportsServiceError(e, a, b) && !errors && !fails ==>
                if OpenRow(old(rows), "node", a, "userid", b) then rows == old(rows) else Adds(old(rows), rows, id, e)
      ensures !fails && (errors || forall a, b :: !ReportsHealth(e, a, b) && !ReportsServiceError(e, a, b)) ==>
                Adds(old(rows), rows, id, e)
    {
      hide FaultOf, OneOpen, CauseInv, NoneOpen, OpenIncident, Created, OpenRow, ReportsHealth, ReportsServiceError,
           Adds;
      ProcessedSpelled(rows, e, id, errors, fails);
      var found := false;
      if FaultOf(e).Some? {
        found := GetIncidentByIssue(FaultOf(e).value, errors);
        CreatedOneOpen(rows, id, e);
      } else {
        CreatedUnknown(rows, id, e);
      }
      if !found {
        CreatedCause(rows, id, e);
        var task := CreateIncident(e, id, fails);
      }
    }
  }

  /** The table after one event, handled on its own. */
  function Processed(t: Table, e: Event, id: string, errors: bool, fails: bool): Table {
    var f := FaultOf(e);
    if fails || (f.Some? && !errors && OpenIncident(t, f.value)) then t else Created(t, id, e)
  }

  /** The same, by the names of the fields. */
  lemma ProcessedSpelled(t: Table, e: Event, id: string, errors: bool, fails: bool)
    requires id !in t
    ensures fails ==> Processed(t, e, id, errors, fails) == t
    ensures forall a, b :: ReportsHealth(e, a, b) && !errors && !fails ==>
              if OpenRow(t, "process_name", a, "hostname", b) then Processed(t, e, id, errors, fails) == t
              else Adds(t, Processed(t, e, id, errors, fails), id, e)
    ensures forall a, b :: ReportsServiceError(e, a, b) && !errors && !fails ==>
              if OpenRow(t, "node", a, "userid", b) then Processed(t, e, id, errors, fails) == t
              else Adds(t, Processed(t, e, id, errors, fails), id, e)
    ensures !fails && (errors || forall a, b :: !ReportsHealth(e, a, b) && !ReportsServiceError(e, a, b)) ==>
              Adds(t, Processed(t, e, id, errors, fails), id, e)
  {
    hide FaultOf, OpenIncident, OpenRow, ReportsHealth, ReportsServiceError;
    assert Adds(t, Created(t, id, e), id, e);
    forall a, b | ReportsHealth(e, a, b) || ReportsServiceError(e, a, b)
      ensures ReportsHealth(e, a, b) ==> FaultOf(e) == Some(Fault(Health, a, b))
      ensures ReportsServiceError(e, a, b) ==> FaultOf(e) == Some(Fault(ServiceError, a, b))
      ensures OpenIncident(t, Fault(Health, a, b)) <==> OpenRow(t, "process_name", a, "hostname", b)
      ensures OpenIncident(t, Fault(ServiceError, a, b)) <==> OpenRow(t, "node", a, "userid", b)
    {
      FaultSpelled(e, a, b);
      ReportedNotEmpty(e, a, b);
      OpenSpelled(t, a, b);
    }
    if FaultOf(e).Some? {
      SomeFault(e);
    }
  }

  lemma ReportedNotEmpty(e: Event, a: string, b: string)
    requires ReportsHealth(e, a, b) || ReportsServiceError(e, a, b)
    ensures a != "" && b != ""
  {
  }

  lemma CreatedCause(t: Table, id: string, e: Event)
    requires CauseInv(t)
    ensures CauseInv(Created(t, id, e))
  {
    hide FaultOf, Matches;
    if FaultOf(e).Some? {
      CreatedMatches(Created(t, id, e), id, e);
    }
  }

  lemma CreatedUnknown(t: Table, id: string, e: Event)
    requires OneOpen(t) && id !in t && FaultOf(e).None?
    ensures OneOpen(Created(t, id, e))
  {
    hide FaultOf;
  }

  lemma CreatedMatches(t: Table, id: string, e: Event)
    requires FaultOf(e).Some? && id in t && t[id].unresolved && t[id].issue == e.payload[INCIDENT_ID := id]
    ensures Matches(t[id], FaultOf(e).value)
  {
    assert |INCIDENT_ID| == 11 && |"process_name"| == 12 && |"hostname"| == 8 && |"node"| == 4 && |"userid"| == 6;
  }

  // ---- one handler, one step at a time ----

  datatype Pc = Arrived | Waiting | Looking | Creating | Releasing | Finished

  /** One `process_fault_event` in flight. `lock` is meaningful once it waits for one. */
  datatype Handler = Handler(event: Event, pc: Pc, lock: LockId)

  datatype System = System(handlers: seq<Handler>, locks: Locks, held: map<LockId, nat>, table: Table)

  /** A handler moves (its lookup may error, its insert may fail, it may be torn down),
      or somebody resolves an incident. */
  datatype Turn =
    | Move(who: nat, id: string, lookupErrors: bool, insertFails: bool, cancelled: bool)
    | Resolve(incident: string)

  predicate Keyed(h: Handler) {
    CorrelationKey(h.event).Some?
  }

  function Set(s: System, who: nat, h: Handler): System
    requires who < |s.handlers|
  {
    s.(handlers := s.handlers[who := h])
  }

  function Arrive(s: System, who: nat, h: Handler): System
    requires who < |s.handlers|
  {
    if !Keyed(h) then Set(s, who, h.(pc := Looking))
    else
      var locks := WithLock(s.locks, CorrelationKey(h.event).value);
      Set(s.(locks := locks), who, h.(pc := Waiting, lock := locks[CorrelationKey(h.event).value]))
  }

  function Acquire(s: System, who: nat, h: Handler): System
    requires who < |s.handlers|
  {
    if h.lock in s.held then s
    else Set(s.(held := s.held[h.lock := who]), who, h.(pc := Looking))
  }

  /** `correlate_incident`; an erroring query counts as nothing found. */
  function LookUp(s: System, who: nat, h: Handler, errors: bool): System
    requires who < |s.handlers|
  {
    var f := FaultOf(h.event);
    var found := f.Some? && !errors && OpenIncident(s.table, f.value);
    Set(s, who, h.(pc := if found then Releasing else Creating))
  }

  function Insert(s: System, who: nat, h: Handler, id: string, fails: bool): System
    requires who < |s.handlers|
  {
    if fails || id in s.table then Set(s, who, h.(pc := Releasing))
    else Set(s.(table := Created(s.table, id, h.event)), who, h.(pc := Releasing))
  }

  /** Leaving `async with lock`, in whatever way. */
  function Release(s: System, who: nat, h: Handler): System
    requires who < |s.handlers|
  {
    Set(if Keyed(h) then s.(held := s.held - {h.lock}) else s, who, h.(pc := Finished))
  }

  function MoveOne(s: System, t: Turn): System
    requires t.Move? && t.who < |s.handlers|
  {
    var h := s.handlers[t.who];
    match h.pc
    case Arrived => Arrive(s, t.who, h)
    case Waiting => if t.cancelled then Set(s, t.who, h.(pc := Finished)) else Acquire(s, t.who, h)
    case Looking => if t.cancelled then Release(s, t.who, h) else LookUp(s, t.who, h, t.lookupErrors)
    case Creating => if t.cancelled then Release(s, t.who, h) else Insert(s, t.who, h, t.id, t.insertFails)
    case Releasing => Release(s, t.who, h)
    case Finished => s
  }

  function Step(s: System, t: Turn): System {
    match t
    case Resolve(id) =>
      if id in s.table then s.(table := s.table[id := s.table[id].(unresolved := false)]) else s
    case Move(who, _, _, _, _) => if who < |s.handlers| then MoveOne(s, t) else s
  }

  function Run(s: System, turns: seq<Turn>): System
    decreases |turns|
  {
    if turns == [] then s else Run(Step(s, turns[0]), turns[1..])
  }

  /** The process starts on whatever table the database holds. */
  function Start(events: seq<Event>, table: Table): System {
    System(seq(|events|, i requires 0 <= i < |events| => Handler(events[i], Arrived, 0)), map[], map[], table)
  }

  /** A handler that goes through lookup and insert does to the table what
      `ProcessFaultEvent` does. */
  lemma HandlerProcesses(s: System, t: Turn)
    requires t.Move? && !t.cancelled && t.who < |s.handlers| && s.handlers[t.who].pc.Looking? && t.id !in s.table
    ensures var e := s.handlers[t.who].event;
            Step(Step(s, t), t).table == Processed(s.table, e, t.id, t.lookupErrors, t.insertFails)
  {
    hide CorrelationKey, FaultOf, Created, OpenIncident;
  }

  // ---- safety ----

  /** Between taking and giving back the lock. */
  predicate Inside(h: Handler) {
    Keyed(h) && (h.pc.Looking? || h.pc.Creating? || h.pc.Releasing?)
  }

  /** From when it waits, a handler has the lock of its key. */
  predicate HasItsLock(locks: Locks, h: Handler)
    requires Keyed(h)
  {
    var key := CorrelationKey(h.event).value;
    h.pc.Waiting? || Inside(h) ==> key in locks && h.lock == locks[key]
  }

  ghost predicate LockInv(s: System) {
    && (forall i :: 0 <= i < |s.handlers| && Keyed(s.handlers[i]) ==> HasItsLock(s.locks, s.handlers[i]))
    && (forall i :: 0 <= i < |s.handlers| && Inside(s.handlers[i]) ==>
        s.handlers[i].lock in s.held && s.held[s.handlers[i].lock] == i)
    && (forall i :: 0 <= i < |s.handlers| && s.handlers[i].pc.Waiting? ==> Keyed(s.handlers[i]))
  }

  /** Every incident that an event of a known kind created carries that event's values. */
  ghost predicate CauseInv(t: Table) {
    forall id :: id in t && t[id].cause.Some? && t[id].unresolved ==> Matches(t[id], t[id].cause.value)
  }

  ghost predicate NoneOpen(t: Table, f: Fault) {
    forall id :: id in t && t[id].unresolved ==> t[id].cause != Some(f)
  }

  /** At most one open incident per kind and pair, among those events of that kind created. */
  ghost predicate OneOpen(t: Table) {
    forall i, j :: i in t && j in t && i != j && t[i].unresolved && t[j].unresolved && t[i].cause.Some? ==>
        t[i].cause != t[j].cause
  }

  ghost predicate CreatingInv(s: System) {
    forall i :: 0 <= i < |s.handlers| && s.handlers[i].pc.Creating? && Keyed(s.handlers[i]) ==>
        NoneOpen(s.table, FaultOf(s.handlers[i].event).value)
  }

  ghost predicate Inv(s: System) {
    LockInv(s) && CauseInv(s.table) && OneOpen(s.table) && CreatingInv(s)
  }

  /** Mutual exclusion per fault: two handlers of one fault are never both inside. */
  lemma OneInside(s: System, i: nat, j: nat)
    requires LockInv(s) && i < |s.handlers| && j < |s.handlers|
    requires Inside(s.handlers[i]) && Inside(s.handlers[j])
    requires CorrelationKey(s.handlers[i].event) == CorrelationKey(s.handlers[j].event)
    ensures i == j
  {
    assert s.handlers[i].lock == s.handlers[j].lock;
  }

  lemma StartInv(events: seq<Event>, table: Table)
    requires CauseInv(table) && OneOpen(table)
    ensures Inv(Start(events, table))
  {
  }

  // The locks, whatever lookups answer.

  lemma ArriveLock(s: System, who: nat)
    requires LockInv(s) && who < |s.handlers| && s.handlers[who].pc.Arrived?
    ensures LockInv(Arrive(s, who, s.handlers[who]))
  {
    hide CorrelationKey;
  }

  lemma AcquireLock(s: System, who: nat)
    requires LockInv(s) && who < |s.handlers| && s.handlers[who].pc.Waiting?
    ensures LockInv(Acquire(s, who, s.handlers[who]))
  {
    hide CorrelationKey;
  }

  /** A handler that is inside, or needs no lock, stays so. */
  lemma AdvanceLock(s: System, who: nat, pc: Pc)
    requires LockInv(s) && who < |s.handlers| && (Inside(s.handlers[who]) || !Keyed(s.handlers[who]))
    requires (pc.Creating? || pc.Releasing?)
    ensures LockInv(Set(s, who, s.handlers[who].(pc := pc)))
  {
    hide CorrelationKey;
  }

  lemma ReleaseLock(s: System, who: nat)
    requires LockInv(s) && who < |s.handlers| && (Inside(s.handlers[who]) || !Keyed(s.handlers[who]))
    ensures LockInv(Release(s, who, s.handlers[who]))
  {
    hide CorrelationKey;
  }

  lemma FinishLock(s: System, who: nat)
    requires LockInv(s) && who < |s.handlers| && s.handlers[who].pc.Waiting?
    ensures LockInv(Set(s, who, s.handlers[who].(pc := Finished)))
  {
    hide CorrelationKey;
  }

  lemma LookUpLock(s: System, who: nat, errors: bool)
    requires LockInv(s) && who < |s.handlers| && s.handlers[who].pc.Looking?
    ensures LockInv(LookUp(s, who, s.handlers[who], errors))
  {
    hide LockInv, CorrelationKey, FaultOf, OpenIncident, Set;
    AdvanceLock(s, who, Creating);
    AdvanceLock(s, who, Releasing);
  }

  lemma InsertLock(s: System, who: nat, id: string, fails: bool)
    requires LockInv(s) && who < |s.handlers| && s.handlers[who].pc.Creating?
    ensures LockInv(Insert(s, who, s.handlers[who], id, fails))
  {
    hide LockInv, CorrelationKey, FaultOf, Created, Set;
    AdvanceLock(s, who, Releasing);
    TableLock(s, Created(s.table, id, s.handlers[who].event));
    AdvanceLock(s.(table := Created(s.table, id, s.handlers[who].event)), who, Releasing);
  }

  lemma TableLock(s: System, table: Table)
    requires LockInv(s)
    ensures LockInv(s.(table := table))
  {
    hide CorrelationKey;
  }

  // Together with the table.

  lemma ArriveInv(s: System, who: nat)
    requires Inv(s) && who < |s.handlers| && s.handlers[who].pc.Arrived?
    ensures Inv(Arrive(s, who, s.handlers[who]))
  {
    hide LockInv, CorrelationKey, FaultOf, OneOpen, CauseInv, NoneOpen;
    ArriveLock(s, who);
  }

  lemma AcquireInv(s: System, who: nat)
    requires Inv(s) && who < |s.handlers| && s.handlers[who].pc.Waiting?
    ensures Inv(Acquire(s, who, s.handlers[who]))
  {
    hide LockInv, CorrelationKey, FaultOf, OneOpen, CauseInv, NoneOpen;
    AcquireLock(s, who);
  }

  /** Finding nothing means that no incident of this fault is open. */
  lemma NothingFound(t: Table, f: Fault)
    requires CauseInv(t) && !OpenIncident(t, f)
    ensures NoneOpen(t, f)
  {
  }

  /** After a lookup, a handler that goes on to insert has no open incident of its fault:
      the lookup found none, or it erred where there was none. */
  lemma LookUpInv(s: System, who: nat, errors: bool)
    requires Inv(s) && who < |s.handlers| && s.handlers[who].pc.Looking?
    requires var f := FaultOf(s.handlers[who].event); errors && f.Some? ==> NoneOpen(s.table, f.value)
    ensures Inv(LookUp(s, who, s.handlers[who], errors))
  {
    hide LockInv, OneOpen, CauseInv, NoneOpen, OpenIncident;
    LookUpLock(s, who, errors);
    var f := FaultOf(s.handlers[who].event);
    if f.Some? && !OpenIncident(s.table, f.value) {
      NothingFound(s.table, f.value);
    }
  }

  lemma InsertInv(s: System, who: nat, id: string, fails: bool)
    requires Inv(s) && who < |s.handlers| && s.handlers[who].pc.Creating?
    ensures Inv(Insert(s, who, s.handlers[who], id, fails))
  {
    hide CorrelationKey, FaultOf, Matches;
    var h := s.handlers[who];
    var s' := Insert(s, who, h, id, fails);
    FaultIsKey(h.event);
    if s'.table != s.table {
      if FaultOf(h.event).Some? {
        CreatedMatches(s'.table, id, h.event);
      }
      forall j | 0 <= j < |s'.handlers| && s'.handlers[j].pc.Creating? && Keyed(s'.handlers[j])
        ensures FaultOf(s'.handlers[j].event).Some? && NoneOpen(s'.table, FaultOf(s'.handlers[j].event).value)
      {
        FaultIsKey(s.handlers[j].event);
        if FaultOf(s.handlers[j].event) == FaultOf(h.event) {
          EqualFaultsEqualKeys(s.handlers[j].event, h.event);
          OneInside(s, j, who);
        }
      }
    }
  }

  lemma FaultIsKey(e: Event)
    ensures FaultOf(e).Some? <==> CorrelationKey(e).Some?
  {
  }

  lemma ReleaseInv(s: System, who: nat)
    requires Inv(s) && who < |s.handlers| && (Inside(s.handlers[who]) || !Keyed(s.handlers[who]))
    ensures Inv(Release(s, who, s.handlers[who]))
  {
    hide LockInv, CorrelationKey, FaultOf, OneOpen, CauseInv, NoneOpen;
    ReleaseLock(s, who);
  }

  lemma ResolveInv(s: System, id: string)
    requires Inv(s) && id in s.table
    ensures Inv(s.(table := s.table[id := s.table[id].(unresolved := false)]))
  {
    hide CorrelationKey, FaultOf;
  }

  lemma FinishInv(s: System, who: nat)
    requires Inv(s) && who < |s.handlers| && s.handlers[who].pc.Waiting?
    ensures Inv(Set(s, who, s.handlers[who].(pc := Finished)))
  {
    hide LockInv, CorrelationKey, FaultOf, OneOpen, CauseInv, NoneOpen;
    FinishLock(s, who);
  }

  /** The lookup of this turn, if it is one, errs only where its fault has no open incident. */
  ghost predicate Answered(s: System, t: Turn) {
    t.Move? && t.who < |s.handlers| && s.handlers[t.who].pc.Looking? && t.lookupErrors ==>
      var f := FaultOf(s.handlers[t.who].event);
      f.Some? ==> NoneOpen(s.table, f.value)
  }

  /** So do all lookups of a run. */
  ghost predicate AllAnswered(s: System, turns: seq<Turn>)
    decreases |turns|
  {
    turns == [] || (Answered(s, turns[0]) && AllAnswered(Step(s, turns[0]), turns[1..]))
  }

  /** In particular when no lookup errs at all. */
  lemma {:induction false} NoErrorsAllAnswered(s: System, turns: seq<Turn>)
    requires forall i :: 0 <= i < |turns| && turns[i].Move? ==> !turns[i].lookupErrors
    ensures AllAnswered(s, turns)
    decreases |turns|
  {
    hide Step;
    if turns != [] {
      NoErrorsAllAnswered(Step(s, turns[0]), turns[1..]);
    }
  }

  lemma StepInv(s: System, t: Turn)
    requires Inv(s) && Answered(s, t)
    ensures Inv(Step(s, t))
  {
    hide Inv, Arrive, Acquire, LookUp, Insert, Release, Set, CorrelationKey;
    match t
    case Resolve(id) =>
      if id in s.table {
        ResolveInv(s, id);
      }
    case Move(who, id, errors, fails, cancelled) =>
      if who < |s.handlers| {
        match s.handlers[who].pc
        case Arrived => ArriveInv(s, who);
        case Waiting => AcquireInv(s, who); FinishInv(s, who);
        case Looking => LookUpInv(s, who, errors); ReleaseInv(s, who);
        case Creating => InsertInv(s, who, id, fails); ReleaseInv(s, who);
        case Releasing => ReleaseInv(s, who);
        case Finished =>
      }
  }

  lemma {:induction false} RunInv(s: System, turns: seq<Turn>)
    requires Inv(s) && AllAnswered(s, turns)
    ensures Inv(Run(s, turns))
    decreases |turns|
  {
    hide Inv, Step;
    if turns != [] {
      StepInv(s, turns[0]);
      RunInv(Step(s, turns[0]), turns[1..]);
    }
  }

  /** From any table with at most one open incident per fault, under every interleaving
      of any number of events, with incidents resolved at any
      time, inserts failing and handlers torn down: as long as lookups err only where
      their fault has no open incident, no two open incidents were created by events of one kind
      for one pair of values. */
  lemma OneOpenIncidentPerFault(events: seq<Event>, table: Table, turns: seq<Turn>)
    requires CauseInv(table) && OneOpen(table) && AllAnswered(Start(events, table), turns)
    ensures OneOpen(Run(Start(events, table), turns).table)
  {
    hide Start, Run, OneOpen, LockInv, CauseInv, CreatingInv;
    StartInv(events, table);
    RunInv(Start(events, table), turns);
  }

  /** The locks are kept right by every turn, lookups that err included. */
  lemma StepLock(s: System, t: Turn)
    requires LockInv(s)
    ensures LockInv(Step(s, t))
  {
    hide LockInv, CorrelationKey, FaultOf, OpenIncident, Created, Release, Arrive, Acquire, WithLock, Set, NoneOpen;
    match t
    case Resolve(id) =>
      if id in s.table {
        TableLock(s, s.table[id := s.table[id].(unresolved := false)]);
      }
    case Move(who, id, errors, _, _) =>
      if who < |s.handlers| {
        match s.handlers[who].pc
        case Arrived => ArriveLock(s, who);
        case Waiting => AcquireLock(s, who); FinishLock(s, who);
        case Looking => LookUpLock(s, who, errors); ReleaseLock(s, who);
        case Creating => InsertLock(s, who, id, t.insertFails); ReleaseLock(s, who);
        case Releasing => ReleaseLock(s, who);
        case Finished =>
      }
  }

  lemma {:induction false} RunLock(s: System, turns: seq<Turn>)
    requires LockInv(s)
    ensures LockInv(Run(s, turns))
    decreases |turns|
  {
    hide LockInv, Step;
    if turns != [] {
      StepLock(s, turns[0]);
      RunLock(Step(s, turns[0]), turns[1..]);
    }
  }

  lemma StartLock(events: seq<Event>, table: Table)
    ensures LockInv(Start(events, table))
  {
  }

  /** Handlers of one fault take turns, in every run. */
  lemma FaultsTakeTurns(events: seq<Event>, table: Table, turns: seq<Turn>, i: nat, j: nat)
    requires var s := Run(Start(events, table), turns);
             && i < |s.handlers| && j < |s.handlers| && Inside(s.handlers[i]) && Inside(s.handlers[j])
             && FaultOf(s.handlers[i].event) == FaultOf(s.handlers[j].event)
    ensures i == j
  {
    hide Start, Run, LockInv, CorrelationKey, FaultOf;
    StartLock(events, table);
    RunLock(Start(events, table), turns);
    var s := Run(Start(events, table), turns);
    EqualFaultsEqualKeys(s.handlers[i].event, s.handlers[j].event);
    OneInside(s, i, j);
  }

  // ---- lookups that err ----

  /** Whatever an erring lookup finds, its handler goes on and inserts. */
  lemma ErrorInserts(s: System, t: Turn)
    requires t.Move? && t.lookupErrors && !t.insertFails && !t.cancelled && t.who < |s.handlers| && t.id !in s.table
    requires s.handlers[t.who].pc.Looking? && FaultOf(s.handlers[t.who].event).Some?
    ensures Step(s, t).table == s.table && Step(s, t).handlers[t.who] == s.handlers[t.who].(pc := Creating)
    ensures Step(Step(s, t), t).table == Created(s.table, t.id, s.handlers[t.who].event)
  {
    hide CorrelationKey, FaultOf, Created, OpenIncident;
  }

  /** A new incident is the only open one of its fault exactly when there was none. */
  lemma CreatedOneOpen(t: Table, id: string, e: Event)
    requires OneOpen(t) && id !in t && FaultOf(e).Some?
    ensures OneOpen(Created(t, id, e)) <==> NoneOpen(t, FaultOf(e).value)
  {
    hide FaultOf;
    var t' := Created(t, id, e);
    if OneOpen(t') {
      forall i | i in t && t[i].unresolved
        ensures t[i].cause != FaultOf(e)
      {
        assert t'[i] == t[i] && t'[id].unresolved && t'[id].cause == FaultOf(e);
      }
    }
  }

  /** The exact condition at an erring lookup, in every state a run can reach: when its
      handler goes on, one open incident per fault is kept if and only if none of this
      fault was open. */
  lemma ErrorDuplicatesIff(s: System, t: Turn)
    requires Inv(s) && t.Move? && t.who < |s.handlers| && s.handlers[t.who].pc.Looking?
    requires FaultOf(s.handlers[t.who].event).Some?
    requires t == Move(t.who, t.id, true, false, false) && t.id !in s.table
    ensures OneOpen(Step(Step(s, t), t).table) <==> NoneOpen(s.table, FaultOf(s.handlers[t.who].event).value)
  {
    hide Step, CorrelationKey, FaultOf, Created, NoneOpen, OneOpen;
    ErrorInserts(s, t);
    CreatedOneOpen(s.table, t.id, s.handlers[t.who].event);
  }

  /** So an erring lookup is harmless in everything that can follow exactly when the
      guard `Answered` puts on it holds. */
  lemma ErrorHarmlessIff(s: System, t: Turn)
    requires Inv(s) && t.Move? && t.who < |s.handlers| && s.handlers[t.who].pc.Looking?
    requires FaultOf(s.handlers[t.who].event).Some?
    requires t == Move(t.who, t.id, true, false, false) && t.id !in s.table
    ensures (forall turns :: AllAnswered(Step(s, t), turns) ==> OneOpen(Run(Step(s, t), turns).table)) <==>
            Answered(s, t)
  {
    hide Inv, Step, CorrelationKey, FaultOf, Created, NoneOpen, OneOpen, AllAnswered, Run;
    ErrorInserts(s, t);
    ErrorDuplicatesIff(s, t);
    var s' := Step(s, t);
    if Answered(s, t) {
      StepInv(s, t);
      forall turns | AllAnswered(s', turns)
        ensures OneOpen(Run(s', turns).table)
      {
        RunInv(s', turns);
        InvOneOpen(Run(s', turns));
      }
    } else {
      OneTurn(s', t);
    }
  }

  lemma InvOneOpen(s: System)
    requires Inv(s)
    ensures OneOpen(s.table)
  {
  }

  lemma OneTurn(s: System, t: Turn)
    ensures Run(s, [t]) == Step(s, t)
    ensures Answered(s, t) ==> AllAnswered(s, [t])
  {
    hide Step, Answered;
    RunFirst(s, t, []);
    assert [t] + [] == [t] && [t][1..] == [];
  }

  /** One undisturbed handler's five moves. */
  function FiveMoves(who: nat, id: string, lookupErrors: bool): seq<Turn> {
    var t := Move(who, id, lookupErrors, false, false);
    [t, t, t, t, t]
  }

  lemma RunFive(s: System, t: Turn)
    ensures Run(s, [t, t, t, t, t]) == Step(Step(Step(Step(Step(s, t), t), t), t), t)
  {
    hide Step;
    var s1 := Step(s, t);
    var s2 := Step(s1, t);
    var s3 := Step(s2, t);
    var s4 := Step(s3, t);
    RunFirst(s, t, [t, t, t, t]);
    RunFirst(s1, t, [t, t, t]);
    RunFirst(s2, t, [t, t]);
    RunFirst(s3, t, [t]);
    RunFirst(s4, t, []);
    assert [t] + [t, t, t, t] == [t, t, t, t, t] && [t] + [t, t, t] == [t, t, t, t] && [t] + [t, t] == [t, t, t];
    assert [t] + [t] == [t, t] && [t] + [] == [t];
  }

  lemma RunFirst(s: System, t: Turn, rest: seq<Turn>)
    ensures Run(s, [t] + rest) == Run(Step(s, t), rest)
  {
    assert ([t] + rest)[1..] == rest;
  }

  /** Up to its insert, a handler that finds nothing changes no incident. */
  lemma HandlerLooks(s: System, who: nat, t: Turn)
    requires t.Move? && t.who == who && !t.cancelled && who < |s.handlers| && s.handlers[who].pc.Arrived?
    requires s.held == map[]
    requires FaultOf(s.handlers[who].event).Some?
    requires (t.lookupErrors || !OpenIncident(s.table, FaultOf(s.handlers[who].event).value))
    ensures var s3 := Step(Step(Step(s, t), t), t);
            var h := s3.handlers;
            && s3.table == s.table && |h| == |s.handlers| && h[who].pc.Creating?
                && h[who].event == s.handlers[who].event
            && s3.held == map[h[who].lock := who]
            && forall j :: 0 <= j < |h| && j != who ==> h[j] == s.handlers[j]
  {
    hide CorrelationKey, FaultOf, Created, OpenIncident;
    FaultIsKey(s.handlers[who].event);
    var s1 := Step(s, t);
    assert s1.handlers[who].pc.Waiting? && s1.table == s.table && s1.held == map[];
    var s2 := Step(s1, t);
    assert s2.handlers[who].pc.Looking? && s2.table == s.table;
  }

  lemma HandlerInserts(s: System, who: nat, t: Turn)
    requires t.Move? && t.who == who && !t.cancelled && !t.insertFails && who < |s.handlers|
    requires s.handlers[who].pc.Creating?
    requires Keyed(s.handlers[who]) && s.held == map[s.handlers[who].lock := who] && t.id !in s.table
    ensures var s2 := Step(Step(s, t), t);
            && s2.table == Created(s.table, t.id, s.handlers[who].event) && s2.held == map[]
                && |s2.handlers| == |s.handlers|
            && forall j :: 0 <= j < |s.handlers| && j != who ==> s2.handlers[j] == s.handlers[j]
  {
    hide CorrelationKey, FaultOf, Created;
    var s1 := Step(s, t);
    assert s1.handlers[who].pc.Releasing? && s1.table == Created(s.table, t.id, s.handlers[who].event);
  }

  /** A whole handler that finds nothing, or whose lookup errors, adds an incident. */
  lemma HandlerCreates(s: System, who: nat, id: string, errors: bool)
    requires who < |s.handlers| && s.handlers[who].pc.Arrived? && FaultOf(s.handlers[who].event).Some?
    requires s.held == map[]
    requires id !in s.table && (errors || !OpenIncident(s.table, FaultOf(s.handlers[who].event).value))
    ensures var s' := Run(s, FiveMoves(who, id, errors));
            && s'.table == Created(s.table, id, s.handlers[who].event) && s'.held == map[]
                && |s'.handlers| == |s.handlers|
            && forall j :: 0 <= j < |s.handlers| && j != who ==> s'.handlers[j] == s.handlers[j]
  {
    hide CorrelationKey, FaultOf, Created, OpenIncident, Step, Run;
    var t := Move(who, id, errors, false, false);
    FaultIsKey(s.handlers[who].event);
    RunFive(s, t);
    HandlerLooks(s, who, t);
    HandlerInserts(Step(Step(Step(s, t), t), t), who, t);
  }

  /** From the start: when the second of two equal events has its lookup error, two
      incidents are open for one fault. */
  lemma LookupErrorsDuplicate(e: Event)
    requires FaultOf(e).Some?
    ensures var s := Start([e, e], map[]);
            !OneOpen(Run(Run(s, FiveMoves(0, "a", false)), FiveMoves(1, "b", true)).table)
  {
    hide FaultOf, FiveMoves, Run;
    var s := Start([e, e], map[]);
    HandlerCreates(s, 0, "a", false);
    var s1 := Run(s, FiveMoves(0, "a", false));
    HandlerCreates(s1, 1, "b", true);
    var t := Run(s1, FiveMoves(1, "b", true)).table;
    assert "a" in t && "b" in t && "a" != "b";
    assert t["a"].unresolved && t["b"].unresolved && t["a"].cause == FaultOf(e) == t["b"].cause;
  }
}
