/**
 * `db/queries.py` over the two tables it works on. Each method is one query function, statement by
 * statement, and commits exactly the transaction the protocol is reasoned about with.
 */
module Queries {
  import opened Wrappers
  import opened Ids
  import opened Serialization
  import opened Events
  import opened Transactions

  /** A row of the events table. */
  datatype EventRecord = EventRecord(eventId: nat, workflowId: Id, event: Event)

  /** SELECT * FROM events WHERE workflow_id = `id` ORDER BY id. */
  function RecordsOf(events: seq<EventRecord>, id: Id): seq<EventRecord> {
    if events == [] then []
    else
      var last := events[|events| - 1];
      RecordsOf(events[..|events| - 1], id) + if last.workflowId == id then [last] else []
  }

  function LogOf(events: seq<EventRecord>, id: Id): Log {
    if events == [] then []
    else
      var last := events[|events| - 1];
      LogOf(events[..|events| - 1], id) + if last.workflowId == id then [last.event] else []
  }

  lemma AppendRecord(events: seq<EventRecord>, r: EventRecord)
    ensures forall id :: RecordsOf(events + [r], id) == RecordsOf(events, id) + if r.workflowId == id then [r] else []
    ensures forall id :: LogOf(events + [r], id) == LogOf(events, id) + if r.workflowId == id then [r.event] else []
  {
    assert (events + [r])[..|events|] == events;
  }

  /** Events of workflows that do not exist cannot exist either: `events.workflow_id` references `workflows`. */
  ghost predicate References(events: seq<EventRecord>, workflows: map<Id, Row>) {
    forall i :: 0 <= i < |events| ==> events[i].workflowId in workflows
  }

  ghost predicate Ascending(events: seq<EventRecord>) {
    forall i, j :: 0 <= i < j < |events| ==> events[i].eventId < events[j].eventId
  }

  lemma {:induction false} UnreferencedLog(events: seq<EventRecord>, workflows: map<Id, Row>, id: Id)
    requires References(events, workflows) && id !in workflows
    ensures LogOf(events, id) == []
  {
    if events != [] {
      UnreferencedLog(events[..|events| - 1], workflows, id);
    }
  }

  /** The log of a workflow is the events of its records. */
  lemma {:induction false} LogIsEventsOfRecords(events: seq<EventRecord>, id: Id)
    ensures |LogOf(events, id)| == |RecordsOf(events, id)|
    ensures forall i :: 0 <= i < |LogOf(events, id)| ==>
      LogOf(events, id)[i] == RecordsOf(events, id)[i].event && RecordsOf(events, id)[i].workflowId == id
  {
    if events != [] {
      LogIsEventsOfRecords(events[..|events| - 1], id);
    }
  }

  function TheStore(workflows: map<Id, Row>, events: seq<EventRecord>): Store {
    Store(workflows, map id | id in workflows :: LogOf(events, id))
  }

  lemma StoreAppend(workflows: map<Id, Row>, events: seq<EventRecord>, r: EventRecord)
    requires r.workflowId in workflows
    ensures TheStore(workflows, events + [r]) == TheStore(workflows, events).Append(r.workflowId, r.event)
  {
    AppendRecord(events, r);
    hide LogOf;
    var s, t := TheStore(workflows, events), TheStore(workflows, events + [r]);
    assert s.Log(r.workflowId) == LogOf(events, r.workflowId);
    forall id | id in workflows
      ensures t.logs[id] == s.Append(r.workflowId, r.event).logs[id]
    {
      assert id != r.workflowId ==> LogOf(events, id) + [] == LogOf(events, id);
    }
    assert t.logs == s.Append(r.workflowId, r.event).logs;
  }

  lemma StoreUpdate(workflows: map<Id, Row>, events: seq<EventRecord>, id: Id, row: Row)
    requires id in workflows
    ensures TheStore(workflows[id := row], events) == TheStore(workflows, events).Update(id, row)
  {
    hide LogOf;
  }

  lemma StoreInsert(workflows: map<Id, Row>, events: seq<EventRecord>, id: Id, row: Row, r: EventRecord)
    requires References(events, workflows) && id !in workflows && r.workflowId == id
    ensures TheStore(workflows[id := row], events + [r]) ==
      Store(workflows[id := row], TheStore(workflows, events).logs[id := [r.event]])
  {
    UnreferencedLog(events, workflows, id);
    AppendRecord(events, r);
    hide LogOf;
    var s, t := TheStore(workflows, events), TheStore(workflows[id := row], events + [r]);
    forall x | x in t.logs
      ensures t.logs[x] == s.logs[id := [r.event]][x]
    {
      assert x != id ==> LogOf(events, x) + [] == LogOf(events, x);
      assert [] + [r.event] == [r.event];
    }
    assert t.logs == s.logs[id := [r.event]];
  }

  class Database {
    const lockDuration: Time
    var workflows: map<Id, Row>
    var events: seq<EventRecord>
    var nextEventId: nat
    var now: Time

    ghost predicate Valid()
      reads this
    {
      && References(events, workflows) && Ascending(events)
      && nextEventId > 0 && forall i :: 0 <= i < |events| ==> 0 < events[i].eventId < nextEventId
    }

    ghost function Contents(): Store
      reads this
    {
      TheStore(workflows, events)
    }

    lemma Tables()
      ensures Contents().rows == workflows && Contents().logs.Keys == workflows.Keys
    {
    }

    /** The tables are as one transaction has left them, and the clock has not moved. */
    twostate predicate Committed(tx: Tx)
      requires old(Transactions.Valid(Contents(), tx))
      reads this
    {
      && Valid() && now == old(now) && old(events) <= events
      && Contents() == Commit(old(Contents()), now, lockDuration, tx)
    }

    constructor (lockDuration: Time, now: Time)
      ensures Valid() && Contents() == Empty && this.now == now && this.lockDuration == lockDuration
    {
      this.lockDuration := lockDuration;
      workflows, events, nextEventId := map[], [], 1;
      this.now := now;
    }

    /** INSERT INTO events: the sequence gives out ascending ids. */
    method Insert(id: Id, event: Event)
      requires Valid() && id in workflows
      modifies this`events, this`nextEventId
      ensures Valid() && Contents() == old(Contents()).Append(id, event) && old(events) <= events
    {
      StoreAppend(workflows, events, EventRecord(nextEventId, id, event));
      events := events + [EventRecord(nextEventId, id, event)];
      nextEventId := nextEventId + 1;
    }

    /** UPDATE workflows SET ... WHERE workflow_id = `id`. */
    method Update(id: Id, row: Row)
      requires Valid() && id in workflows
      modifies this`workflows
      ensures Valid() && Contents() == old(Contents()).Update(id, row)
    {
      StoreUpdate(workflows, events, id, row);
      workflows := workflows[id := row];
    }

    method CreateWorkflow(id: Id, name: string, input: Json)
      requires Valid() && id !in workflows
      modifies this
      ensures Committed(Tx.CreateWorkflow(id, name, input))
    {
      StoreInsert(workflows, events, id, NewRow(name, None, now), EventRecord(nextEventId, id, Started(input, None)));
      workflows := workflows[id := NewRow(name, None, now)];
      events := events + [EventRecord(nextEventId, id, Started(input, None))];
      nextEventId := nextEventId + 1;
    }

    /** Returns false, and does nothing, if the child exists already. */
    method CreateChildWorkflow(parent: Id, child: Id, name: string, input: Json, step: nat) returns (created: bool)
      requires Valid() && parent in workflows
      modifies this
      ensures Committed(Tx.CreateChild(parent, step, child, name, input))
      ensures created == (child !in old(workflows))
    {
      if child in workflows {
        return false;
      }
      hide LogOf, TheStore;
      var started := Started(input, Some(ParentInfo(parent, child)));
      StoreInsert(workflows, events, child, NewRow(name, Some(parent), now), EventRecord(nextEventId, child, started));
      workflows := workflows[child := NewRow(name, Some(parent), now)];
      events := events + [EventRecord(nextEventId, child, started)];
      nextEventId := nextEventId + 1;
      Insert(parent, ChildStarted(step, child, name, input));
      created := true;
    }

    method TakeLock(id: Id, worker: string)
      requires Valid() && id in workflows
      modifies this
      ensures Committed(Tx.ClaimWorkflow(id, worker))
    {
      Update(id, workflows[id].(lockedBy := Some(worker), lockedUntil := Some(now + lockDuration)));
    }

    /** The eligible row with the least `run_at`, if any row is eligible. */
    method OldestClaimable() returns (r: Option<Id>)
      ensures r.None? <==> forall id :: id in workflows ==> !workflows[id].Claimable(now)
      ensures r.Some? ==> r.value in workflows && workflows[r.value].Claimable(now)
      ensures r.Some? ==>
        forall id :: id in workflows && workflows[id].Claimable(now) ==> workflows[r.value].runAt <= workflows[id].runAt
    {
      r := None;
      var rest := workflows.Keys;
      while rest != {}
        invariant rest <= workflows.Keys
        invariant r.None? <==> forall id :: id in workflows && id !in rest ==> !workflows[id].Claimable(now)
        invariant r.Some? ==> r.value in workflows && workflows[r.value].Claimable(now)
        invariant r.Some? ==> forall id :: id in workflows && id !in rest && workflows[id].Claimable(now) ==>
          workflows[r.value].runAt <= workflows[id].runAt
        decreases rest
      {
        var id :| id in rest;
        rest := rest - {id};
        if workflows[id].Claimable(now) && (r.None? || workflows[id].runAt < workflows[r.value].runAt) {
          r := Some(id);
        }
      }
    }

    /** `claim_next_workflow`: nobody gets a row that is not eligible, and nobody goes without if there is one. */
    method ClaimNextWorkflow(worker: string) returns (r: Option<Id>)
      requires Valid()
      modifies this
      ensures r.None? ==> Committed(NoTx) && forall id :: id in workflows ==> !workflows[id].Claimable(now)
      ensures r.Some? ==> r.value in old(workflows) && old(workflows[r.value].Claimable(now))
      ensures r.Some? ==> Committed(Tx.ClaimWorkflow(r.value, worker))
      ensures r.Some? ==> forall id :: id in old(workflows) && old(workflows[id].Claimable(now)) ==>
        old(workflows[r.value].runAt) <= old(workflows[id].runAt)
    {
      r := OldestClaimable();
      if r.Some? {
        TakeLock(r.value, worker);
      }
    }

    /** Both `mark_workflow_waiting_for_...` functions; false means the event is there already. */
    method MarkWorkflowWaiting(id: Id, awaited: Query) returns (marked: bool)
      requires Valid() && id in workflows
      modifies this
      ensures Committed(Tx.MarkWaiting(id, awaited))
      ensures marked <==> First(old(Contents()).Log(id), awaited).None?
    {
      var found := Exists(id, awaited);
      if found {
        return false;
      }
      Update(id, workflows[id].(status := WAITING).Unlocked());
      marked := true;
    }

    /** SELECT EXISTS (SELECT 1 FROM events WHERE ...). */
    method Exists(id: Id, q: Query) returns (found: bool)
      requires id in workflows
      ensures found <==> First(Contents().Log(id), q).Some?
    {
      found := false;
      for k := 0 to |events|
        invariant found <==> First(LogOf(events[..k], id), q).Some?
      {
        assert events[..k + 1] == events[..k] + [events[k]];
        AppendRecord(events[..k], events[k]);
        FirstOfAppend(LogOf(events[..k], id), events[k].event, q);
        assert LogOf(events[..k], id) + [] == LogOf(events[..k], id);
        if events[k].workflowId == id && Matches(events[k].event, q) {
          found := true;
        }
      }
      assert events[..|events|] == events;
    }

    method UpdateWorkflowRunAt(id: Id, runAt: Time)
      requires Valid() && id in workflows
      modifies this
      ensures Committed(Tx.Reschedule(id, runAt))
    {
      Update(id, workflows[id].(runAt := runAt).Unlocked());
    }

    method ExtendWorkflowLock(id: Id)
      requires Valid() && id in workflows
      modifies this
      ensures Committed(Tx.ExtendLock(id))
    {
      Update(id, workflows[id].(lockedUntil := Some(now + lockDuration)));
    }

    method WriteEvent(id: Id, event: Event)
      requires Valid() && id in workflows
      modifies this
      ensures Committed(Tx.WriteEvent(id, event))
    {
      Insert(id, event);
    }

    method WriteSignalAndWakeWorkflow(id: Id, signalType: string, payload: Json)
      requires Valid() && id in workflows
      modifies this
      ensures Committed(Tx.WriteSignal(id, signalType, payload))
    {
      Insert(id, Signal(signalType, payload));
      Update(id, workflows[id].Woken(now));
    }

    /** `_write_terminal_workflow_event`: the end of a workflow, and the signal that wakes its parent. */
    method WriteTerminalWorkflowEvent(id: Id, outcome: ChildOutcome, parentInfo: Option<ParentInfo>)
      requires Valid() && id in workflows && (parentInfo.Some? ==> parentInfo.value.workflowId in workflows)
      modifies this
      ensures Committed(Tx.Finish(id, outcome, parentInfo))
    {
      Insert(id, TerminalEvent(outcome));
      Update(id, workflows[id].(status := TerminalStatus(outcome)).Unlocked());
      if parentInfo.Some? {
        var parent := parentInfo.value.workflowId;
        Insert(parent, ChildSignal(parentInfo.value.childId, outcome));
        Update(parent, workflows[parent].Woken(now));
      }
    }

    /** `load_event_history`. */
    method LoadEventHistory(id: Id) returns (log: Log)
      requires id in workflows
      ensures log == Contents().Log(id)
    {
      log := [];
      for k := 0 to |events|
        invariant log == LogOf(events[..k], id)
      {
        assert events[..k + 1] == events[..k] + [events[k]];
        AppendRecord(events[..k], events[k]);
        if events[k].workflowId == id {
          log := log + [events[k].event];
        }
      }
      assert events[..|events|] == events;
    }

    /** Time passes. */
    method Tick(elapsed: nat)
      requires Valid()
      modifies this`now
      ensures now == old(now) + elapsed
    {
      now := now + elapsed;
    }

    /** Any of the above, as somebody else's call. */
    method Perform(tx: Tx)
      requires Valid() && Transactions.Valid(Contents(), tx)
      modifies this
      ensures Committed(tx)
    {
      hide LogOf, First;
      match tx
      case NoTx =>
      case CreateWorkflow(id, name, input) => CreateWorkflow(id, name, input);
      case CreateChild(parent, step, child, name, input) =>
        var _ := CreateChildWorkflow(parent, child, name, input, step);
      case ClaimWorkflow(id, worker) => TakeLock(id, worker);
      case ExtendLock(id) => ExtendWorkflowLock(id);
      case WriteEvent(id, e) => WriteEvent(id, e);
      case Reschedule(id, at) => UpdateWorkflowRunAt(id, at);
      case MarkWaiting(id, awaited) =>
        var _ := MarkWorkflowWaiting(id, awaited);
      case WriteSignal(id, t, payload) => WriteSignalAndWakeWorkflow(id, t, payload);
      case Finish(id, outcome, parentInfo) => WriteTerminalWorkflowEvent(id, outcome, parentInfo);
    }

    /** `load_events_after`: the records past a cursor, in id order. */
    method LoadEventsAfter(id: Id, after: nat) returns (records: seq<EventRecord>)
      requires Valid()
      ensures records == Past(RecordsOf(events, id), after)
    {
      records := [];
      for k := 0 to |events|
        invariant records == Past(RecordsOf(events[..k], id), after)
      {
        assert events[..k + 1] == events[..k] + [events[k]];
        AppendRecord(events[..k], events[k]);
        PastAppend(RecordsOf(events[..k], id), events[k], after);
        assert RecordsOf(events[..k], id) + [] == RecordsOf(events[..k], id);
        if events[k].workflowId == id && events[k].eventId > after {
          records := records + [events[k]];
        }
      }
      assert events[..|events|] == events;
    }
  }

  /** WHERE id > `after`. */
  function Past(records: seq<EventRecord>, after: nat): seq<EventRecord> {
    if records == [] then []
    else
      var last := records[|records| - 1];
      Past(records[..|records| - 1], after) + if last.eventId > after then [last] else []
  }

  lemma PastAppend(records: seq<EventRecord>, r: EventRecord, after: nat)
    ensures Past(records + [r], after) == Past(records, after) + if r.eventId > after then [r] else []
  {
    assert (records + [r])[..|records|] == records;
  }
}
