/**
 * `api/sse.py`: tailing a workflow's log. A stream replays the history it was opened with and then,
 * each time it is notified, reads what lies past the last event id it has yielded.
 */
module Stream {
  import opened Wrappers
  import opened Ids
  import opened Events
  import opened Transactions
  import opened Family
  import opened Queries

  predicate IsTerminal(r: EventRecord) {
    r.event.WorkflowCompleted? || r.event.WorkflowFailed?
  }

  /**
   * What a stream has yielded of these records, by event type: all of them, unless one is the completion
   * or the failure of the workflow; then those up to the first such one, and the stream has ended.
   */
  ghost predicate Tailed(records: seq<EventRecord>, yielded: seq<EventRecord>, open: bool) {
    && yielded <= records && (open ==> yielded == records)
    && (open <==> forall r :: r in records ==> !r.event.WorkflowCompleted? && !r.event.WorkflowFailed?)
    && (forall i :: 0 <= i < |yielded| - 1 ==> !yielded[i].event.WorkflowCompleted? && !yielded[i].event.WorkflowFailed?)
    && (!open ==> yielded != [])
    && (!open ==> yielded[|yielded| - 1].event.WorkflowCompleted? || yielded[|yielded| - 1].event.WorkflowFailed?)
  }

  lemma ThroughTerminalIsTailed(records: seq<EventRecord>)
    ensures Tailed(records, ThroughTerminal(records), !HasTerminal(records))
  {
    ThroughTerminalIsExact(records);
    hide ThroughTerminal;
    if HasTerminal(records) {
      var i :| 0 <= i < |records| && IsTerminal(records[i]);
      assert records[i] in records;
    }
  }

  /** The tables show this workflow as ended, and are tables the engine leaves. */
  ghost predicate Finished(db: Database, id: Id)
    reads db
  {
    id in db.workflows && db.workflows[id].IsTerminal() && StoreInv(db.Contents())
  }

  /** A workflow that has ended has the event that says so. */
  lemma FinishedHasEnd(db: Database, id: Id)
    ensures Finished(db, id) ==> HasTerminal(RecordsOf(db.events, id))
  {
    if Finished(db, id) {
      assert db.Contents().Has(id) && TerminalOk(db.Contents(), id);
      var log := LogOf(db.events, id);
      assert db.Contents().logs[id] == log;
      ScanIsExact(log, Terminal);
      LogIsEventsOfRecords(db.events, id);
      var k :| 0 <= k < |log| && log[k] == First(log, Terminal).value;
      assert IsTerminal(RecordsOf(db.events, id)[k]);
    }
  }

  predicate HasTerminal(records: seq<EventRecord>) {
    exists i :: 0 <= i < |records| && IsTerminal(records[i])
  }

  /** The records up to the first terminal one, that one included. */
  function ThroughTerminal(records: seq<EventRecord>): seq<EventRecord> {
    if records == [] then []
    else if IsTerminal(records[0]) then [records[0]]
    else [records[0]] + ThroughTerminal(records[1..])
  }

  /** A prefix without gaps or repeats, in which only the last event may be terminal, and all of it otherwise. */
  lemma {:induction false} ThroughTerminalIsExact(records: seq<EventRecord>)
    ensures var y := ThroughTerminal(records);
      && y <= records
      && (forall i :: 0 <= i < |y| - 1 ==> !IsTerminal(y[i]))
      && (if HasTerminal(records) then y != [] && IsTerminal(y[|y| - 1]) else y == records)
  {
    if records != [] && !IsTerminal(records[0]) {
      ThroughTerminalIsExact(records[1..]);
      assert records == [records[0]] + records[1..];
      if HasTerminal(records) {
        var i :| 0 <= i < |records| && IsTerminal(records[i]);
        assert IsTerminal(records[1..][i - 1]);
      }
      if HasTerminal(records[1..]) {
        var i :| 0 <= i < |records[1..]| && IsTerminal(records[1..][i]);
        assert IsTerminal(records[i + 1]);
      }
    }
  }

  /** What has been yielded never has to be taken back when the log grows. */
  lemma {:induction false} ThroughTerminalGrows(a: seq<EventRecord>, b: seq<EventRecord>)
    requires a <= b
    ensures ThroughTerminal(a) <= ThroughTerminal(b)
    ensures HasTerminal(a) ==> ThroughTerminal(b) == ThroughTerminal(a)
  {
    if a != [] && !IsTerminal(a[0]) {
      ThroughTerminalGrows(a[1..], b[1..]);
      if HasTerminal(a) {
        var i :| 0 <= i < |a| && IsTerminal(a[i]);
        assert IsTerminal(a[1..][i - 1]);
      }
    }
  }

  lemma {:induction false} ThroughTerminalAppend(records: seq<EventRecord>, r: EventRecord)
    requires !HasTerminal(records)
    ensures ThroughTerminal(records + [r]) == records + [r]
    ensures HasTerminal(records + [r]) <==> IsTerminal(r)
  {
    var more := records + [r];
    assert more[|records|] == r;
    if records != [] {
      assert forall i :: 0 <= i < |records| - 1 ==> records[1..][i] == records[i + 1];
      ThroughTerminalAppend(records[1..], r);
      assert more[1..] == records[1..] + [r];
      assert !IsTerminal(records[0]) && more == [records[0]] + more[1..];
    }
  }

  // ----- The cursor -----

  lemma {:induction false} RecordsAscend(events: seq<EventRecord>, id: Id)
    requires Ascending(events)
    ensures Ascending(RecordsOf(events, id))
    ensures forall r :: r in RecordsOf(events, id) ==> r in events
  {
    if events != [] {
      var init := events[..|events| - 1];
      RecordsAscend(init, id);
      forall r | r in RecordsOf(init, id)
        ensures r.eventId < events[|events| - 1].eventId
      {
        var i :| 0 <= i < |init| && init[i] == r;
        assert events[i] == r;
      }
    }
  }

  /** The log a stream reads only grows at its end. */
  lemma {:induction false} RecordsGrow(events: seq<EventRecord>, more: seq<EventRecord>, id: Id)
    requires events <= more
    ensures RecordsOf(events, id) <= RecordsOf(more, id)
    decreases |more|
  {
    if |events| < |more| {
      RecordsGrow(events, more[..|more| - 1], id);
    } else {
      assert events == more;
    }
  }

  /** The event id a stream that has read `records` goes on from. */
  function CursorAfter(records: seq<EventRecord>): nat {
    if records == [] then 0 else records[|records| - 1].eventId
  }

  /** Reading past the cursor gives exactly what has not been read. */
  lemma {:induction false} PastIsTheRest(read: seq<EventRecord>, records: seq<EventRecord>)
    requires Ascending(records) && read <= records && forall r :: r in records ==> r.eventId > 0
    ensures Past(records, CursorAfter(read)) == records[|read|..]
    decreases |records|
  {
    if |read| < |records| {
      var init, last := records[..|records| - 1], records[|records| - 1];
      assert init + [last] == records;
      PastIsTheRest(read, init);
      assert last.eventId > CursorAfter(read);
      assert records[|read|..] == init[|read|..] + [last];
    } else {
      NothingPast(records, CursorAfter(records));
    }
  }

  lemma {:induction false} NothingPast(records: seq<EventRecord>, after: nat)
    requires forall r :: r in records ==> r.eventId <= after
    ensures Past(records, after) == []
  {
    if records != [] {
      NothingPast(records[..|records| - 1], after);
    }
  }

  class EventStream {
    const workflowId: Id
    var lastEventId: nat
    var yielded: seq<EventRecord>
    var open: bool
    ghost var read: seq<EventRecord>   // the part of the log read so far

    ghost predicate Valid()
      reads this
    {
      && yielded == ThroughTerminal(read) && (open <==> !HasTerminal(read))
      && (open ==> lastEventId == CursorAfter(read))
    }

    /** Yields one event; says whether the stream goes on. */
    method Yield(r: EventRecord)
      requires Valid() && open
      modifies this
      ensures Valid() && read == old(read) + [r]
    {
      ThroughTerminalIsExact(read);
      ThroughTerminalAppend(read, r);
      read := read + [r];
      yielded := yielded + [r];
      lastEventId := r.eventId;
      open := !IsTerminal(r);
    }

    /** Yields the given events up to a terminal one. */
    method YieldAll(records: seq<EventRecord>)
      requires Valid() && open
      modifies this
      ensures Valid() && read == old(read) + records && Tailed(read, yielded, open)
    {
      var k := 0;
      while k < |records| && open
        invariant 0 <= k <= |records| && Valid() && read == old(read) + records[..k]
      {
        assert records[..k + 1] == records[..k] + [records[k]];
        Yield(records[k]);
        k := k + 1;
      }
      assert k == |records| ==> records[..k] == records;
      assert old(read) + records[..k] <= old(read) + records;
      ThroughTerminalGrows(read, old(read) + records);
      if !open {
        ghost var i :| 0 <= i < |read| && IsTerminal(read[i]);
        assert IsTerminal((old(read) + records)[i]);
      }
      read := old(read) + records;
      ThroughTerminalIsTailed(read);
    }

    /** A new stream replays the history its endpoint has loaded. */
    constructor (workflowId: Id, existing: seq<EventRecord>)
      ensures Valid() && this.workflowId == workflowId && read == existing
    {
      this.workflowId := workflowId;
      lastEventId, yielded, open, read := 0, [], true, [];
      new;
      YieldAll(existing);
      assert [] + existing == existing;
    }

    /** Reads what lies past the cursor and yields it. */
    method ReadOn(db: Database)
      requires Valid() && open && db.Valid() && read <= RecordsOf(db.events, workflowId)
      modifies this
      ensures Valid() && read == RecordsOf(db.events, workflowId)
    {
      ghost var records := RecordsOf(db.events, workflowId);
      RecordsAscend(db.events, workflowId);
      forall r | r in records
        ensures r.eventId > 0
      {
        ghost var i :| 0 <= i < |db.events| && db.events[i] == r;
      }
      PastIsTheRest(read, records);
      var newEvents := db.LoadEventsAfter(workflowId, lastEventId);
      assert read + records[|read|..] == records;
      YieldAll(newEvents);
    }

    /**
     * A notification, be it late, repeated or about nothing new: afterwards the stream has yielded
     * exactly the log as it is now, up to the completion or failure of the workflow, if that is there.
     */
    method Resume(db: Database)
      requires Valid() && db.Valid() && read <= RecordsOf(db.events, workflowId)
      modifies this
      ensures Valid() && old(read) <= read <= RecordsOf(db.events, workflowId)
      ensures yielded == ThroughTerminal(RecordsOf(db.events, workflowId)) && old(yielded) <= yielded
      ensures Tailed(RecordsOf(db.events, workflowId), yielded, open)
      ensures Finished(db, workflowId) ==> !open
    {
      hide Tailed, Finished, StoreInv, ThroughTerminal, IsTerminal;
      ghost var records := RecordsOf(db.events, workflowId);
      ThroughTerminalGrows(read, records);
      ThroughTerminalIsTailed(records);
      FinishedHasEnd(db, workflowId);
      if open {
        ReadOn(db);
      } else {
        EndedStaysEnded(read, records);
      }
    }
  }

  lemma EndedStaysEnded(read: seq<EventRecord>, records: seq<EventRecord>)
    requires read <= records && HasTerminal(read)
    ensures HasTerminal(records)
  {
    var i :| 0 <= i < |read| && IsTerminal(read[i]);
    assert IsTerminal(records[i]);
  }

  // ----- Notifications -----

  type StreamId = nat

  /** The shared registry of notification queues: which streams a workflow has, and what is pending for each. */
  class Subscribers {
    var queues: map<Id, seq<StreamId>>
    var pending: map<StreamId, nat>

    ghost predicate Valid()
      reads this
    {
      && (forall id :: id in queues ==> queues[id] != [])
      && (forall id, i :: id in queues && 0 <= i < |queues[id]| ==> queues[id][i] in pending)
      && (forall id, i, j :: id in queues && 0 <= i < j < |queues[id]| ==> queues[id][i] != queues[id][j])
    }

    predicate Listens(id: Id, s: StreamId)
      reads this
    {
      id in queues && s in queues[id]
    }

    constructor ()
      ensures Valid() && queues == map[] && pending == map[]
    {
      queues, pending := map[], map[];
    }

    method Register(id: Id, s: StreamId)
      requires Valid() && s !in pending
      modifies this
      ensures Valid() && pending == old(pending)[s := 0]
      ensures forall x, k :: Listens(x, k) <==> old(Listens(x, k)) || (x == id && k == s)
    {
      pending := pending[s := 0];
      queues := queues[id := (if id in queues then queues[id] else []) + [s]];
    }

    /** `_on_notify`: one more item in every queue of this workflow, and in no other. */
    method OnNotify(id: Id)
      requires Valid()
      modifies this`pending
      ensures Valid() && pending.Keys == old(pending.Keys)
      ensures forall s :: s in pending ==> pending[s] == old(pending)[s] + if Listens(id, s) then 1 else 0
    {
      if id in queues {
        var streams := queues[id];
        for k := 0 to |streams|
          invariant pending.Keys == old(pending.Keys)
          invariant forall s :: s in pending ==> pending[s] == old(pending)[s] + if s in streams[..k] then 1 else 0
        {
          pending := pending[streams[k] := pending[streams[k]] + 1];
          assert streams[..k + 1] == streams[..k] + [streams[k]];
        }
        assert streams[..|streams|] == streams;
      }
    }

    /** The end of a stream: its queue goes, and with the last queue the entry of the workflow. */
    method Unregister(id: Id, s: StreamId)
      requires Valid()
      modifies this`queues
      ensures Valid()
      ensures forall x, k :: Listens(x, k) <==> old(Listens(x, k)) && !(x == id && k == s)
    {
      if id !in queues {
        return;
      }
      var streams := queues[id];
      var k := 0;
      while k < |streams| && streams[k] != s
        invariant 0 <= k <= |streams| && s !in streams[..k]
      {
        assert streams[..k + 1] == streams[..k] + [streams[k]];
        k := k + 1;
      }
      if k == |streams| {
        assert streams[..k] == streams;
        return;
      }
      var rest := streams[..k] + streams[k + 1..];
      RemovedOne(streams, k);
      queues := if rest == [] then queues - {id} else queues[id := rest];
    }
  }

  lemma RemovedOne(streams: seq<StreamId>, k: nat)
    requires k < |streams| && forall i, j :: 0 <= i < j < |streams| ==> streams[i] != streams[j]
    ensures var rest := streams[..k] + streams[k + 1..];
      && (forall s :: s in rest <==> s in streams && s != streams[k])
      && forall i, j :: 0 <= i < j < |rest| ==> rest[i] != rest[j]
  {
    var rest := streams[..k] + streams[k + 1..];
    forall s | s in streams && s != streams[k]
      ensures s in rest
    {
      var i :| 0 <= i < |streams| && streams[i] == s;
      assert if i < k then rest[i] == s else rest[i - 1] == s;
    }
  }
}
