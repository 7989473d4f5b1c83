/** The append-only event log and the first-match scans the engine runs over it. */
module Events {
  import opened Wrappers
  import opened Ids
  import opened Serialization

  /** Microseconds on one clock shared by workers and database. */
  type Time = int

  /** Why a workflow failed; the source stores these as formatted text. */
  datatype Reason =
    | StartedMissing
    | Unregistered(name: string)
    | Diverged(step: nat)
    | Unhandled(error: string)
    | Exhausted(activity: string, error: string)

  datatype ParentInfo = ParentInfo(workflowId: Id, childId: Id)
  datatype ChildOutcome = ChildCompleted(result: Json) | ChildFailed(reason: Reason)

  /** One row of the events table: the event type together with its payload. */
  datatype Event =
    | Started(input: Json, parent: Option<ParentInfo>)
    | Scheduled(step: nat, name: string, call: Json)
    | Completed(step: nat, result: Json, attemptsTotal: nat)
    | Failed(step: nat, error: string, attempt: nat)
    | Sleeping(step: nat, wakeupAt: Time, timestamp: Time)
    | ChildStarted(step: nat, childId: Id, name: string, input: Json)
    | Signal(signalType: string, payload: Json)
    | SignalWaiting(signalType: string)
    | ChildSignal(childId: Id, outcome: ChildOutcome)
    | ChildWaiting(childId: Id)
    | WorkflowCompleted(result: Json)
    | WorkflowFailed(reason: Reason)

  type Log = seq<Event>

  /** The step_index column: -1 for workflow-level events, signals and waiting markers. */
  function StepIndex(e: Event): int {
    match e
    case Scheduled(i, _, _) => i
    case Completed(i, _, _) => i
    case Failed(i, _, _) => i
    case Sleeping(i, _, _) => i
    case ChildStarted(i, _, _, _) => i
    case _ => -1
  }

  datatype Kind = ScheduledKind | CompletedKind | FailedKind | SleepingKind | ChildStartedKind

  /** What a scan over the log looks for. */
  datatype Query =
    | AtStep(step: nat, kind: Kind)
    | IsStarted
    | Received(signalType: string)
    | SignalMarker(signalType: string)
    | ChildResult(childId: Id)
    | ChildMarker(childId: Id)
    | Terminal

  predicate Matches(e: Event, q: Query) {
    match q
    case AtStep(i, ScheduledKind) => e.Scheduled? && e.step == i
    case AtStep(i, CompletedKind) => e.Completed? && e.step == i
    case AtStep(i, FailedKind) => e.Failed? && e.step == i
    case AtStep(i, SleepingKind) => e.Sleeping? && e.step == i
    case AtStep(i, ChildStartedKind) => e.ChildStarted? && e.step == i
    case IsStarted => e.Started?
    case Received(t) => e.Signal? && e.signalType == t
    case SignalMarker(t) => e.SignalWaiting? && e.signalType == t
    case ChildResult(c) => e.ChildSignal? && e.childId == c
    case ChildMarker(c) => e.ChildWaiting? && e.childId == c
    case Terminal => e.WorkflowCompleted? || e.WorkflowFailed?
  }

  /** The first matching event in log order. */
  function First(log: Log, q: Query): (r: Option<Event>)
    ensures r.Some? ==> Matches(r.value, q)
  {
    if log == [] then None
    else
      var earlier := First(log[..|log| - 1], q);
      var last := log[|log| - 1];
      if earlier.Some? then earlier
      else if Matches(last, q) then Some(last)
      else None
  }

  function FailedAt(i: nat): Query {
    AtStep(i, FailedKind)
  }

  /** How many events match. */
  function Count(log: Log, q: Query): nat {
    if log == [] then 0
    else
      Count(log[..|log| - 1], q) + if Matches(log[|log| - 1], q) then 1 else 0
  }

  // ----- Appending -----

  lemma FirstOfAppend(log: Log, e: Event, q: Query)
    ensures First(log + [e], q) ==
      if First(log, q).Some? then First(log, q) else if Matches(e, q) then Some(e) else None
  {
    assert (log + [e])[..|log + [e]| - 1] == log;
  }

  /** The first event of its kind. */
  lemma AppendedIsFirst(log: Log, e: Event, q: Query)
    requires Count(log, q) == 0 && Matches(e, q)
    ensures First(log + [e], q) == Some(e)
  {
    ScanIsExact(log, q);
    FirstOfAppend(log, e, q);
  }

  lemma CountOfAppend(log: Log, e: Event, q: Query)
    ensures Count(log + [e], q) == Count(log, q) + if Matches(e, q) then 1 else 0
  {
    assert (log + [e])[..|log + [e]| - 1] == log;
  }

  /** The first match after `e` has been appended. */
  function FirstWith(log: Log, e: Event, q: Query): Option<Event> {
    if First(log, q).Some? then First(log, q) else if Matches(e, q) then Some(e) else None
  }

  /** The answers of every scan after an append. */
  lemma AppendScans(log: Log, e: Event)
    ensures forall q: Query :: Count(log + [e], q) == Count(log, q) + if Matches(e, q) then 1 else 0
    ensures forall q: Query :: First(log + [e], q) == FirstWith(log, e, q)
  {
    forall q: Query
      ensures Count(log + [e], q) == Count(log, q) + if Matches(e, q) then 1 else 0
      ensures First(log + [e], q) == FirstWith(log, e, q)
    {
      FirstOfAppend(log, e, q);
      CountOfAppend(log, e, q);
    }
  }

  /** A first match never changes: later events cannot overtake it. */
  lemma {:induction false} FirstIsStable(log: Log, more: Log, q: Query)
    requires log <= more && First(log, q).Some?
    ensures First(more, q) == First(log, q)
    decreases |more|
  {
    if |log| < |more| {
      FirstIsStable(log, more[..|more| - 1], q);
    } else {
      assert log == more;
    }
  }

  lemma {:induction false} CountIsMonotone(log: Log, more: Log, q: Query)
    requires log <= more
    ensures Count(log, q) <= Count(more, q)
    decreases |more|
  {
    if |log| < |more| {
      CountIsMonotone(log, more[..|more| - 1], q);
    } else {
      assert log == more;
    }
  }

  /** Events that do not match leave the answers of a scan alone. */
  lemma {:induction false} ScanIgnores(log: Log, more: Log, q: Query)
    requires log <= more
    requires forall p :: |log| <= p < |more| ==> !Matches(more[p], q)
    ensures First(more, q) == First(log, q) && Count(more, q) == Count(log, q)
    decreases |more|
  {
    if |log| < |more| {
      var init := more[..|more| - 1];
      ScanIgnores(log, init, q);
      FirstOfAppend(init, more[|more| - 1], q);
      assert init + [more[|more| - 1]] == more;
    } else {
      assert log == more;
    }
  }

  /** A scan finds something exactly if something matches. */
  lemma {:induction false} ScanIsExact(log: Log, q: Query)
    ensures First(log, q).Some? <==> Count(log, q) > 0
    ensures First(log, q).Some? ==> First(log, q).value in log
    ensures First(log, q).None? ==> forall e :: e in log ==> !Matches(e, q)
  {
    if log != [] {
      var init, last := log[..|log| - 1], log[|log| - 1];
      assert log == init + [last];
      FirstOfAppend(init, last, q);
      CountOfAppend(init, last, q);
      ScanIsExact(init, q);
      hide First, Count, Matches;
    }
  }

  /** Where the first match stands: nothing before it matches. */
  lemma {:induction false} PlaceOfFirst(log: Log, q: Query) returns (k: nat)
    requires First(log, q).Some?
    ensures k < |log| && log[k] == First(log, q).value && forall j :: 0 <= j < k ==> !Matches(log[j], q)
  {
    var init := log[..|log| - 1];
    if First(init, q).Some? {
      k := PlaceOfFirst(init, q);
    } else {
      ScanIsExact(init, q);
      k := |log| - 1;
      assert forall j :: 0 <= j < k ==> log[j] in init;
    }
  }
}
