/**
 * The durable state and what each query function of `db/queries.py` commits to it.
 * A transaction is atomic here; module ReadCommitted takes the two that race apart into statements.
 */
module Transactions {
  import opened Wrappers
  import opened Ids
  import opened Serialization
  import opened Events

  datatype Status = RUNNING | WAITING | COMPLETED | FAILED

  datatype Row = Row(
    name: string,
    status: Status,
    runAt: Time,
    lockedBy: Option<string>,
    lockedUntil: Option<Time>,
    parent: Option<Id>)
  {
    /** The WHERE clause of `claim_next_workflow`. */
    predicate Claimable(now: Time) {
      && runAt <= now
      && status == RUNNING
      && (lockedBy.None? || (lockedUntil.Some? && lockedUntil.value < now))
    }

    predicate IsTerminal() {
      status == COMPLETED || status == FAILED
    }

    function Unlocked(): Row {
      this.(lockedBy := None, lockedUntil := None)
    }

    function Woken(now: Time): Row {
      this.(runAt := now, status := RUNNING)
    }
  }

  /** The workflows table and, per workflow, its rows of the events table in id order. */
  datatype Store = Store(rows: map<Id, Row>, logs: map<Id, Log>) {
    predicate Has(id: Id) {
      id in rows && id in logs
    }

    function Log(id: Id): Log {
      if id in logs then logs[id] else []
    }

    function Append(id: Id, e: Event): Store {
      this.(logs := logs[id := Log(id) + [e]])
    }

    /** UPDATE ... WHERE workflow_id = id; an absent row is no error. */
    function Update(id: Id, row: Row): Store {
      if id in rows then this.(rows := rows[id := row]) else this
    }
  }

  const Empty := Store(map[], map[])

  /** One call of one query function, with its arguments. */
  datatype Tx =
    | NoTx
    | CreateWorkflow(id: Id, name: string, input: Json)
    | CreateChild(parent: Id, step: nat, child: Id, name: string, input: Json)
    | ClaimWorkflow(id: Id, worker: string)
    | ExtendLock(id: Id)
    | WriteEvent(id: Id, event: Event)
    | Reschedule(id: Id, runAt: Time)
    | MarkWaiting(id: Id, awaited: Query)
    | WriteSignal(id: Id, signalType: string, payload: Json)
    | Finish(id: Id, outcome: ChildOutcome, parentInfo: Option<ParentInfo>)

  function TerminalEvent(outcome: ChildOutcome): Event {
    match outcome
    case ChildCompleted(result) => WorkflowCompleted(result)
    case ChildFailed(reason) => WorkflowFailed(reason)
  }

  function TerminalStatus(outcome: ChildOutcome): Status {
    if outcome.ChildCompleted? then COMPLETED else FAILED
  }

  function NewRow(name: string, parent: Option<Id>, now: Time): Row {
    Row(name, RUNNING, now, None, None, parent)
  }

  /** The rows a transaction refers to exist, so that no constraint of the schema is violated. */
  predicate Valid(s: Store, tx: Tx) {
    match tx
    case NoTx => true
    case CreateWorkflow(id, _, _) => id !in s.rows && id !in s.logs
    case CreateChild(parent, _, child, _, _) => s.Has(parent) && (child in s.rows || child !in s.logs)
    case Finish(id, _, parent) => s.Has(id) && (parent.Some? ==> s.Has(parent.value.workflowId))
    case ClaimWorkflow(id, _) => s.Has(id)
    case ExtendLock(id) => s.Has(id)
    case WriteEvent(id, _) => s.Has(id)
    case Reschedule(id, _) => s.Has(id)
    case MarkWaiting(id, _) => s.Has(id)
    case WriteSignal(id, _, _) => s.Has(id)
  }

  function Commit(s: Store, now: Time, lockDuration: Time, tx: Tx): Store
    requires Valid(s, tx)
  {
    match tx
    case NoTx => s
    case CreateWorkflow(id, name, input) =>
      Store(s.rows[id := NewRow(name, None, now)], s.logs[id := [Started(input, None)]])
    case CreateChild(parent, step, child, name, input) =>
      if child in s.rows then s
      else
        Store(
          s.rows[child := NewRow(name, Some(parent), now)],
          s.logs[child := [Started(input, Some(ParentInfo(parent, child)))]]
        ).Append(parent, ChildStarted(step, child, name, input))
    case ClaimWorkflow(id, worker) =>
      s.Update(id, s.rows[id].(lockedBy := Some(worker), lockedUntil := Some(now + lockDuration)))
    case ExtendLock(id) =>
      s.Update(id, s.rows[id].(lockedUntil := Some(now + lockDuration)))
    case WriteEvent(id, e) => s.Append(id, e)
    case Reschedule(id, at) => s.Update(id, s.rows[id].(runAt := at).Unlocked())
    case MarkWaiting(id, awaited) =>
      if First(s.Log(id), awaited).Some? then s
      else s.Update(id, s.rows[id].(status := WAITING).Unlocked())
    case WriteSignal(id, t, payload) =>
      s.Append(id, Signal(t, payload)).Update(id, s.rows[id].Woken(now))
    case Finish(id, outcome, parent) =>
      var own := s.Append(id, TerminalEvent(outcome))
                  .Update(id, s.rows[id].(status := TerminalStatus(outcome)).Unlocked());
      if parent.None? then own
      else
        var p := parent.value.workflowId;
        own.Append(p, ChildSignal(parent.value.childId, outcome)).Update(p, own.rows[p].Woken(now))
  }

  /** Logs only grow, and no row is ever removed or moved to another parent or name. */
  ghost predicate Grows(s: Store, t: Store) {
    && s.rows.Keys <= t.rows.Keys
    && (forall id :: id in s.rows ==> t.rows[id].name == s.rows[id].name && t.rows[id].parent == s.rows[id].parent)
    && s.logs.Keys <= t.logs.Keys
    && forall id :: id in s.logs ==> s.logs[id] <= t.logs[id]
  }

  lemma CommitGrows(s: Store, now: Time, lockDuration: Time, tx: Tx)
    requires Valid(s, tx)
    ensures Grows(s, Commit(s, now, lockDuration, tx))
  {
    hide First;
  }
}
