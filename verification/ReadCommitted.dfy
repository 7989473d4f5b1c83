/**
 * The transactions of `db/queries.py` statement by statement, under PostgreSQL's READ COMMITTED
 * isolation (PostgreSQL 16 documentation, sections 13.2.1 and 13.3.2): a statement sees what was
 * committed when it began and its own transaction's writes; a row written, locked or referred to stays
 * locked until its transaction ends, in the mode its statement takes; inserted events become visible at
 * commit. Any number of transactions interleave, wait for each other's row locks, and may be rolled back
 * at any point.
 */
module ReadCommitted {
  import opened Wrappers
  import opened Ids
  import opened Serialization
  import opened Events
  import opened Transactions

  // ----- Statements -----

  datatype RowChange =
    | SetWaiting
    | Wake
    | SetTerminal(status: Status)
    | SetRunAt(runAt: Time)
    | ExtendUntil(until: Time)

  function Changed(change: RowChange, row: Row, now: Time): Row {
    match change
    case SetWaiting => row.(status := WAITING).Unlocked()
    case Wake => row.Woken(now)
    case SetTerminal(status) => row.(status := status).Unlocked()
    case SetRunAt(at) => row.(runAt := at).Unlocked()
    case ExtendUntil(until) => row.(lockedUntil := Some(until))
  }

  datatype Statement =
    | LockRow(id: Id)                               // SELECT ... FOR UPDATE
    | StopIfFound(id: Id, awaited: Query)           // SELECT EXISTS (...), then return False
    | UpdateRow(id: Id, change: RowChange)          // UPDATE workflows ... WHERE workflow_id = ...
    | ClaimRow(id: Id, worker: string)              // SELECT ... FOR UPDATE SKIP LOCKED, and its UPDATE
    | InsertRow(id: Id, row: Row, orStop: bool)     // INSERT INTO workflows, with or without ON CONFLICT DO NOTHING
    | CheckParent(id: Id)                           // the check of `workflows.parent_id` that follows that insert
    | InsertEvent(id: Id, event: Event)             // INSERT INTO events, and the check of `events.workflow_id`

  /** A transaction of the engine, or the mark as the one UPDATE with a NOT EXISTS subquery it must not be. */
  datatype Work = Engine(tx: Tx) | SingleUpdate(id: Id, awaited: Query)

  function Program(work: Work, now: Time, lockDuration: Time): seq<Statement> {
    match work
    case SingleUpdate(id, awaited) =>
      // the subquery answers for the moment the statement began, which may be before the row lock is free
      [StopIfFound(id, awaited), UpdateRow(id, SetWaiting)]
    case Engine(tx) =>
      match tx
      case NoTx => []
      case CreateWorkflow(id, name, input) =>
        [InsertRow(id, NewRow(name, None, now), false), InsertEvent(id, Started(input, None))]
      case CreateChild(parent, step, child, name, input) =>
        [InsertRow(child, NewRow(name, Some(parent), now), true), CheckParent(parent),
         InsertEvent(child, Started(input, Some(ParentInfo(parent, child)))),
         InsertEvent(parent, ChildStarted(step, child, name, input))]
      case ClaimWorkflow(id, worker) => [ClaimRow(id, worker)]
      case ExtendLock(id) => [UpdateRow(id, ExtendUntil(now + lockDuration))]
      case WriteEvent(id, e) => [InsertEvent(id, e)]
      case Reschedule(id, at) => [UpdateRow(id, SetRunAt(at))]
      case MarkWaiting(id, awaited) => [LockRow(id), StopIfFound(id, awaited), UpdateRow(id, SetWaiting)]
      case WriteSignal(id, t, payload) => [InsertEvent(id, Signal(t, payload)), UpdateRow(id, Wake)]
      case Finish(id, outcome, parentInfo) =>
        [InsertEvent(id, TerminalEvent(outcome)), UpdateRow(id, SetTerminal(TerminalStatus(outcome)))] +
        match parentInfo
        case None => []
        case Some(p) => [InsertEvent(p.workflowId, ChildSignal(p.childId, outcome)), UpdateRow(p.workflowId, Wake)]
  }

  // ----- Locks -----

  /** The row-level lock modes of section 13.3.2 that the statements take. */
  datatype Mode = KeyShare | NoKeyUpdate | ForUpdate

  datatype Lock = Lock(id: Id, mode: Mode)

  predicate Conflict(a: Mode, b: Mode) {
    a.ForUpdate? || b.ForUpdate? || (a.NoKeyUpdate? && b.NoKeyUpdate?)
  }

  /** Locks that one transaction can hold while another holds the other. */
  predicate Compatible(a: Lock, b: Lock) {
    a.id == b.id ==> !Conflict(a.mode, b.mode)
  }

  /** The row lock a statement needs; a key that is committed already is refused without one. */
  function LockOf(s: Store, stmt: Statement): Option<Lock> {
    match stmt
    case LockRow(id) => Some(Lock(id, ForUpdate))
    case UpdateRow(id, _) => Some(Lock(id, NoKeyUpdate))
    case ClaimRow(id, _) => Some(Lock(id, ForUpdate))
    case InsertRow(id, _, _) => if id in s.rows then None else Some(Lock(id, ForUpdate))
    case CheckParent(id) => Some(Lock(id, KeyShare))
    case InsertEvent(id, _) => Some(Lock(id, KeyShare))
    case StopIfFound(_, _) => None
  }

  // ----- Sessions -----

  datatype Insert = Insert(id: Id, event: Event)

  /** An open transaction: its progress, its row locks, and its uncommitted writes. */
  datatype Session = Session(
    work: Work, began: Time, at: nat, held: set<Lock>, rows: map<Id, Row>, inserts: seq<Insert>, stopped: bool)
  {
    function Stop(found: bool): Session { this.(stopped := found) }
    function Take(lock: Option<Lock>): Session { if lock.Some? then this.(held := held + {lock.value}) else this }
    function Put(id: Id, row: Row): Session { this.(rows := rows[id := row]) }
  }

  function Open(work: Work, began: Time): Session {
    Session(work, began, 0, {}, map[], [], false)
  }

  function Statements(lockDuration: Time, x: Session): seq<Statement> {
    Program(x.work, x.began, lockDuration)
  }

  predicate Finished(lockDuration: Time, x: Session) {
    x.stopped || x.at == |Statements(lockDuration, x)|
  }

  /** What one statement does, given the store as committed when it executes. */
  function Execute(lockDuration: Time, s: Store, x: Session, stmt: Statement): Session {
    var y := x.(at := x.at + 1).Take(LockOf(s, stmt));
    match stmt
    case LockRow(_) => y
    case StopIfFound(id, awaited) => y.Stop(First(s.Log(id), awaited).Some?)
    case UpdateRow(id, change) => if id in s.rows then y.Put(id, Changed(change, s.rows[id], x.began)) else y
    case ClaimRow(id, worker) =>
      if id in s.rows then y.Put(id, s.rows[id].(lockedBy := Some(worker), lockedUntil := Some(x.began + lockDuration)))
      else y
    case InsertRow(id, row, _) => if id in s.rows then y.Stop(true) else y.Put(id, row)
    case CheckParent(_) => y
    case InsertEvent(id, e) => y.(inserts := y.inserts + [Insert(id, e)])
  }

  /** The first `n` statements executed in one go against one store. */
  function RunTo(lockDuration: Time, s: Store, work: Work, began: Time, n: nat): Session
    requires n <= |Program(work, began, lockDuration)|
  {
    if n == 0 then Open(work, began)
    else Execute(lockDuration, s, RunTo(lockDuration, s, work, began, n - 1), Program(work, began, lockDuration)[n - 1])
  }

  function Appended(s: Store, inserts: seq<Insert>): Store {
    if inserts == [] then s
    else Appended(s, inserts[..|inserts| - 1]).Append(inserts[|inserts| - 1].id, inserts[|inserts| - 1].event)
  }

  /** COMMIT: the new row versions replace the old, and the events join the log. */
  function Effect(s: Store, x: Session): Store {
    Appended(s.(rows := s.rows + x.rows), x.inserts)
  }

  // ----- Interleavings -----

  type SessionId = nat

  datatype World = World(
    store: Store,                        // what is committed
    sessions: map<SessionId, Session>,   // what is not
    order: seq<(Time, Tx)>,              // transactions in commit order, with their start times; no code reads it
    awaiting: map<Id, set<Query>>)       // what was marked as awaited since the row was last woken; no code reads it
  {
    function Awaiting(id: Id): set<Query> {
      if id in awaiting then awaiting[id] else {}
    }
  }

  datatype Act =
    | Begin(k: SessionId, work: Work, now: Time)
    | Exec(k: SessionId)
    | CommitTx(k: SessionId)
    | Rollback(k: SessionId)

  predicate Grants(w: World, k: SessionId, lock: Lock) {
    forall m, other :: m in w.sessions && m != k && other in w.sessions[m].held ==> Compatible(other, lock)
  }

  /** Conditions other than locks: a claim takes only an eligible row, and a plain INSERT fails on a taken key. */
  predicate Passes(s: Store, x: Session, stmt: Statement) {
    match stmt
    case ClaimRow(id, _) => id in s.rows && s.rows[id].Claimable(x.began)
    case InsertRow(id, _, orStop) => id in s.rows ==> orStop
    case _ => true
  }

  predicate IsAwaitable(q: Query) {
    q.Received? || q.ChildResult?
  }

  /** The engine's transactions refer to existing rows, and wait only for what wakes. */
  predicate Allowed(s: Store, work: Work) {
    match work
    case SingleUpdate(id, awaited) => id in s.rows && IsAwaitable(awaited)
    case Engine(tx) =>
      && (tx.CreateWorkflow? || Valid(s, tx))
      && (tx.MarkWaiting? ==> IsAwaitable(tx.awaited))
      && (tx.WriteEvent? ==> !tx.event.Signal? && !tx.event.ChildSignal?)
      && (tx.CreateChild? ==> |tx.parent| < |tx.child|)
      && (tx.Finish? && tx.parentInfo.Some? ==> |tx.parentInfo.value.workflowId| < |tx.id|)
  }

  predicate CanRun(lockDuration: Time, w: World, k: SessionId) {
    && k in w.sessions && !Finished(lockDuration, w.sessions[k])
    && var x := w.sessions[k];
      && x.at < |Statements(lockDuration, x)|
      && var stmt := Statements(lockDuration, x)[x.at];
        && (LockOf(w.store, stmt).Some? ==> Grants(w, k, LockOf(w.store, stmt).value))
        && Passes(w.store, x, stmt)
  }

  predicate Possible(lockDuration: Time, w: World, a: Act) {
    match a
    case Begin(k, work, _) => k !in w.sessions && Allowed(w.store, work)
    case Exec(k) => CanRun(lockDuration, w, k)
    case CommitTx(k) => k in w.sessions && Finished(lockDuration, w.sessions[k])
    case Rollback(k) => k in w.sessions
  }

  function AwaitingAfter(w: World, x: Session): map<Id, set<Query>> {
    match x.work
    case SingleUpdate(id, awaited) =>
      if x.stopped then w.awaiting else w.awaiting[id := w.Awaiting(id) + {awaited}]
    case Engine(tx) =>
      match tx
      case MarkWaiting(id, awaited) =>
        if x.stopped then w.awaiting else w.awaiting[id := w.Awaiting(id) + {awaited}]
      case WriteSignal(id, _, _) => w.awaiting[id := {}]
      case Finish(id, _, parentInfo) =>
        if parentInfo.Some? then w.awaiting[id := {}][parentInfo.value.workflowId := {}] else w.awaiting[id := {}]
      case _ => w.awaiting
  }

  function Next(lockDuration: Time, w: World, a: Act): World
    requires Possible(lockDuration, w, a)
  {
    match a
    case Begin(k, work, now) => w.(sessions := w.sessions[k := Open(work, now)])
    case Exec(k) =>
      var x := w.sessions[k];
      w.(sessions := w.sessions[k := Execute(lockDuration, w.store, x, Statements(lockDuration, x)[x.at])])
    case CommitTx(k) =>
      var x := w.sessions[k];
      World(Effect(w.store, x), w.sessions - {k},
            w.order + (if x.work.Engine? then [(x.began, x.work.tx)] else []),
            AwaitingAfter(w, x))
    case Rollback(k) => w.(sessions := w.sessions - {k})
  }

  ghost predicate Interleaving(lockDuration: Time, w: World, acts: seq<Act>)
    decreases |acts|
  {
    acts == [] || (
      && Possible(lockDuration, w, acts[0])
      && Interleaving(lockDuration, Next(lockDuration, w, acts[0]), acts[1..]))
  }

  ghost function After(lockDuration: Time, w: World, acts: seq<Act>): World
    requires Interleaving(lockDuration, w, acts)
    decreases |acts|
  {
    if acts == [] then w else After(lockDuration, Next(lockDuration, w, acts[0]), acts[1..])
  }

  // ----- One transaction by itself -----

  lemma AppendedOne(s: Store, a: Insert)
    ensures Appended(s, [a]) == s.Append(a.id, a.event)
  {
    assert [a][..0] == [];
  }

  lemma AppendedTwo(s: Store, a: Insert, b: Insert)
    ensures Appended(s, [a, b]) == s.Append(a.id, a.event).Append(b.id, b.event)
  {
    assert [a, b][..1] == [a];
    AppendedOne(s, a);
  }

  /** The uninterrupted execution of `tx` has ended after `n` statements. */
  ghost predicate EndsAt(lockDuration: Time, s: Store, tx: Tx, began: Time, n: nat) {
    && n <= |Program(Engine(tx), began, lockDuration)|
    && Finished(lockDuration, RunTo(lockDuration, s, Engine(tx), began, n))
    && RunTo(lockDuration, s, Engine(tx), began, n).at == n
    && forall i :: 0 <= i < n ==> !RunTo(lockDuration, s, Engine(tx), began, i).stopped
  }

  lemma StepOf(lockDuration: Time, s: Store, work: Work, began: Time, n: nat)
    requires 0 < n <= |Program(work, began, lockDuration)|
    ensures RunTo(lockDuration, s, work, began, n) ==
      Execute(lockDuration, s, RunTo(lockDuration, s, work, began, n - 1), Program(work, began, lockDuration)[n - 1])
    ensures RunTo(lockDuration, s, work, began, 0) == Open(work, began)
  {
    hide Execute;
  }

  lemma SerialMark(lockDuration: Time, s: Store, tx: Tx, began: Time, n: nat)
    requires Valid(s, tx) && EndsAt(lockDuration, s, tx, began, n) && tx.MarkWaiting?
    ensures Effect(s, RunTo(lockDuration, s, Engine(tx), began, n)) == Commit(s, began, lockDuration, tx)
  {
    hide First, RunTo;
    StepOf(lockDuration, s, Engine(tx), began, 1);
    StepOf(lockDuration, s, Engine(tx), began, 2);
    StepOf(lockDuration, s, Engine(tx), began, 3);
    var x := RunTo(lockDuration, s, Engine(tx), began, n);
    if First(s.Log(tx.id), tx.awaited).Some? {
      assert n == 2 && s.(rows := s.rows + x.rows) == s;
    } else {
      assert n == 3;
    }
  }

  lemma ChildSession(lockDuration: Time, s: Store, tx: Tx, began: Time)
    requires Valid(s, tx) && tx.CreateChild? && tx.child != tx.parent
    ensures |Program(Engine(tx), began, lockDuration)| == 4
    ensures var x := RunTo(lockDuration, s, Engine(tx), began, 1);
      if tx.child in s.rows then x.stopped && x.rows == map[] && x.inserts == [] else !x.stopped
    ensures tx.child !in s.rows ==>
      var x := RunTo(lockDuration, s, Engine(tx), began, 4);
      && x.rows == map[tx.child := NewRow(tx.name, Some(tx.parent), began)]
      && x.inserts == [Insert(tx.child, Started(tx.input, Some(ParentInfo(tx.parent, tx.child)))),
                       Insert(tx.parent, ChildStarted(tx.step, tx.child, tx.name, tx.input))]
    ensures forall n :: 0 < n < 4 && tx.child !in s.rows ==> !RunTo(lockDuration, s, Engine(tx), began, n).stopped
  {
    hide First, RunTo;
    StepOf(lockDuration, s, Engine(tx), began, 1);
    StepOf(lockDuration, s, Engine(tx), began, 2);
    StepOf(lockDuration, s, Engine(tx), began, 3);
    StepOf(lockDuration, s, Engine(tx), began, 4);
  }

  lemma ChildEnds(lockDuration: Time, s: Store, tx: Tx, began: Time, n: nat)
    requires Valid(s, tx) && EndsAt(lockDuration, s, tx, began, n) && tx.CreateChild? && tx.child != tx.parent
    ensures n == if tx.child in s.rows then 1 else 4
  {
    WorkOf(lockDuration, s, Engine(tx), began, n);
    OpenIsEmpty(lockDuration, s, tx, began);
    ChildSession(lockDuration, s, tx, began);
    hide First, RunTo, Execute, Program;
    assert n > 1 ==> !RunTo(lockDuration, s, Engine(tx), began, 1).stopped;
  }

  lemma SpawnOfNew(lockDuration: Time, s: Store, tx: Tx, began: Time)
    requires Valid(s, tx) && tx.CreateChild? && tx.child !in s.rows && tx.child != tx.parent
    ensures s.(rows := s.rows[tx.child := NewRow(tx.name, Some(tx.parent), began)])
             .Append(tx.child, Started(tx.input, Some(ParentInfo(tx.parent, tx.child))))
             .Append(tx.parent, ChildStarted(tx.step, tx.child, tx.name, tx.input))
            == Commit(s, began, lockDuration, tx)
  {
    var started := Started(tx.input, Some(ParentInfo(tx.parent, tx.child)));
    assert s.Log(tx.child) + [started] == [started];
  }

  lemma SerialChild(lockDuration: Time, s: Store, tx: Tx, began: Time, n: nat)
    requires Valid(s, tx) && EndsAt(lockDuration, s, tx, began, n) && tx.CreateChild? && tx.child != tx.parent
    ensures Effect(s, RunTo(lockDuration, s, Engine(tx), began, n)) == Commit(s, began, lockDuration, tx)
  {
    ChildEnds(lockDuration, s, tx, began, n);
    ChildSession(lockDuration, s, tx, began);
    AppendedNone(s);
    hide First, RunTo, Appended, Execute, Program, EndsAt;
    var x := RunTo(lockDuration, s, Engine(tx), began, n);
    var t := s.(rows := s.rows + x.rows);
    if tx.child in s.rows {
      assert t == s;
    } else {
      SpawnOfNew(lockDuration, s, tx, began);
      hide Commit, Valid;
      assert t.rows == s.rows[tx.child := NewRow(tx.name, Some(tx.parent), began)];
      AppendedTwo(t, x.inserts[0], x.inserts[1]);
    }
  }

  lemma SerialFinish(lockDuration: Time, s: Store, tx: Tx, began: Time, n: nat)
    requires Valid(s, tx) && EndsAt(lockDuration, s, tx, began, n) && tx.Finish?
    requires tx.parentInfo.Some? ==> tx.parentInfo.value.workflowId != tx.id
    ensures Effect(s, RunTo(lockDuration, s, Engine(tx), began, n)) == Commit(s, began, lockDuration, tx)
  {
    hide First, RunTo, Appended;
    if tx.parentInfo.Some? {
      NeverStopped(lockDuration, s, tx, began, n);
      SerialDelivery(lockDuration, s, tx, began, n);
    } else {
      StepOf(lockDuration, s, Engine(tx), began, 1);
      StepOf(lockDuration, s, Engine(tx), began, 2);
      var x := RunTo(lockDuration, s, Engine(tx), began, n);
      var t := s.(rows := s.rows + x.rows);
      var terminal := Insert(tx.id, TerminalEvent(tx.outcome));
      assert n == 2 && x.inserts == [terminal];
      AppendedOne(t, terminal);
      assert t.rows == s.rows[tx.id := s.rows[tx.id].(status := TerminalStatus(tx.outcome)).Unlocked()];
    }
  }

  lemma {:induction false} NoStop(lockDuration: Time, s: Store, tx: Tx, began: Time, n: nat)
    requires tx.Finish? && n <= |Program(Engine(tx), began, lockDuration)|
    ensures !RunTo(lockDuration, s, Engine(tx), began, n).stopped
  {
    if n > 0 {
      NoStop(lockDuration, s, tx, began, n - 1);
    }
  }

  lemma NeverStopped(lockDuration: Time, s: Store, tx: Tx, began: Time, n: nat)
    requires EndsAt(lockDuration, s, tx, began, n) && tx.Finish?
    ensures n == |Program(Engine(tx), began, lockDuration)|
  {
    NoStop(lockDuration, s, tx, began, n);
    WorkOf(lockDuration, s, Engine(tx), began, n);
  }

  lemma {:induction false} WorkOf(lockDuration: Time, s: Store, work: Work, began: Time, n: nat)
    requires n <= |Program(work, began, lockDuration)|
    ensures RunTo(lockDuration, s, work, began, n).work == work && RunTo(lockDuration, s, work, began, n).began == began
  {
    hide Program, First;
    if n > 0 {
      WorkOf(lockDuration, s, work, began, n - 1);
    }
  }

  lemma DeliverySession(lockDuration: Time, s: Store, tx: Tx, began: Time)
    requires Valid(s, tx) && tx.Finish? && tx.parentInfo.Some? && tx.parentInfo.value.workflowId != tx.id
    ensures |Program(Engine(tx), began, lockDuration)| == 4
    ensures var x, p := RunTo(lockDuration, s, Engine(tx), began, 4), tx.parentInfo.value.workflowId;
      && x.inserts == [Insert(tx.id, TerminalEvent(tx.outcome)),
                       Insert(p, ChildSignal(tx.parentInfo.value.childId, tx.outcome))]
      && x.rows ==
           map[tx.id := s.rows[tx.id].(status := TerminalStatus(tx.outcome)).Unlocked()][p := s.rows[p].Woken(began)]
  {
    hide First, RunTo;
    var terminal := Insert(tx.id, TerminalEvent(tx.outcome));
    StepOf(lockDuration, s, Engine(tx), began, 1);
    assert RunTo(lockDuration, s, Engine(tx), began, 1).inserts == [terminal];
    StepOf(lockDuration, s, Engine(tx), began, 2);
    assert RunTo(lockDuration, s, Engine(tx), began, 2).inserts == [terminal];
    StepOf(lockDuration, s, Engine(tx), began, 3);
    StepOf(lockDuration, s, Engine(tx), began, 4);
  }

  lemma SerialDelivery(lockDuration: Time, s: Store, tx: Tx, began: Time, n: nat)
    requires Valid(s, tx) && EndsAt(lockDuration, s, tx, began, n) && tx.Finish? && tx.parentInfo.Some?
    requires tx.parentInfo.value.workflowId != tx.id && n == 4
    ensures Effect(s, RunTo(lockDuration, s, Engine(tx), began, n)) == Commit(s, began, lockDuration, tx)
  {
    hide First, RunTo, Appended, Execute, Program, EndsAt;
    DeliverySession(lockDuration, s, tx, began);
    var x := RunTo(lockDuration, s, Engine(tx), began, 4);
    var t := s.(rows := s.rows + x.rows);
    AppendedTwo(t, x.inserts[0], x.inserts[1]);
    var p := tx.parentInfo.value.workflowId;
    assert t.rows == s.rows[tx.id := x.rows[tx.id]][p := x.rows[p]];
  }

  /** Executed without interruption, the statements of a transaction amount to its atomic meaning. */
  lemma SerialIsAtomic(lockDuration: Time, s: Store, tx: Tx, began: Time, n: nat)
    requires Valid(s, tx) && EndsAt(lockDuration, s, tx, began, n)
    requires tx.CreateChild? ==> tx.child != tx.parent
    requires tx.Finish? && tx.parentInfo.Some? ==> tx.parentInfo.value.workflowId != tx.id
    ensures Effect(s, RunTo(lockDuration, s, Engine(tx), began, n)) == Commit(s, began, lockDuration, tx)
  {
    if tx.MarkWaiting? {
      SerialMark(lockDuration, s, tx, began, n);
    } else if tx.CreateChild? {
      SerialChild(lockDuration, s, tx, began, n);
    } else if tx.Finish? {
      SerialFinish(lockDuration, s, tx, began, n);
    } else {
      SerialShort(lockDuration, s, tx, began, n);
    }
  }

  lemma SerialShort(lockDuration: Time, s: Store, tx: Tx, began: Time, n: nat)
    requires Valid(s, tx) && EndsAt(lockDuration, s, tx, began, n)
    requires !tx.MarkWaiting? && !tx.CreateChild? && !tx.Finish?
    ensures Effect(s, RunTo(lockDuration, s, Engine(tx), began, n)) == Commit(s, began, lockDuration, tx)
  {
    hide First, RunTo, Appended;
    if tx == NoTx {
      OpenIsEmpty(lockDuration, s, tx, began);
      AppendedNone(s);
      assert s.rows + map[] == s.rows;
    } else if tx.CreateWorkflow? || tx.WriteSignal? {
      SerialTwo(lockDuration, s, tx, began, n);
    } else {
      SerialOne(lockDuration, s, tx, began, n);
    }
  }

  lemma SerialOne(lockDuration: Time, s: Store, tx: Tx, began: Time, n: nat)
    requires Valid(s, tx) && EndsAt(lockDuration, s, tx, began, n)
    requires tx.ClaimWorkflow? || tx.ExtendLock? || tx.Reschedule? || tx.WriteEvent?
    ensures Effect(s, RunTo(lockDuration, s, Engine(tx), began, n)) == Commit(s, began, lockDuration, tx)
  {
    hide First, RunTo, Appended;
    AppendedNone(s);
    StepOf(lockDuration, s, Engine(tx), began, 1);
    var x := RunTo(lockDuration, s, Engine(tx), began, n);
    assert n == 1;
    if tx.WriteEvent? {
      assert s.(rows := s.rows + x.rows) == s && x.inserts == [Insert(tx.id, tx.event)];
      AppendedOne(s, Insert(tx.id, tx.event));
    } else {
      assert x.inserts == [] && s.rows + x.rows == s.rows[tx.id := x.rows[tx.id]];
    }
  }

  lemma SerialTwo(lockDuration: Time, s: Store, tx: Tx, began: Time, n: nat)
    requires Valid(s, tx) && EndsAt(lockDuration, s, tx, began, n) && (tx.CreateWorkflow? || tx.WriteSignal?)
    ensures Effect(s, RunTo(lockDuration, s, Engine(tx), began, n)) == Commit(s, began, lockDuration, tx)
  {
    hide First, RunTo, Appended;
    StepOf(lockDuration, s, Engine(tx), began, 1);
    StepOf(lockDuration, s, Engine(tx), began, 2);
    var x := RunTo(lockDuration, s, Engine(tx), began, n);
    var t := s.(rows := s.rows + x.rows);
    assert n == 2;
    if tx.CreateWorkflow? {
      var started := Started(tx.input, None);
      assert x.inserts == [Insert(tx.id, started)];
      AppendedOne(t, Insert(tx.id, started));
      assert t.rows == s.rows[tx.id := NewRow(tx.name, None, began)] && t.Log(tx.id) + [started] == [started];
    } else {
      var signal := Signal(tx.signalType, tx.payload);
      assert x.inserts == [Insert(tx.id, signal)];
      AppendedOne(t, Insert(tx.id, signal));
      assert t.rows == s.rows[tx.id := s.rows[tx.id].Woken(began)];
    }
  }

  lemma OpenIsEmpty(lockDuration: Time, s: Store, tx: Tx, began: Time)
    ensures RunTo(lockDuration, s, Engine(tx), began, 0) == Open(Engine(tx), began)
  {
  }

  lemma AppendedNone(s: Store)
    ensures forall rows: map<Id, Row> :: Appended(s.(rows := rows), []) == s.(rows := rows)
  {
  }

  // ----- What a transaction touches -----

  /** The rows a transaction may write. */
  function Touched(s: Store, tx: Tx): set<Id> {
    match tx
    case NoTx => {}
    case WriteEvent(_, _) => {}
    case CreateWorkflow(id, _, _) => {id}
    case CreateChild(_, _, child, _, _) => if child in s.rows then {} else {child}
    case ClaimWorkflow(id, _) => {id}
    case ExtendLock(id) => {id}
    case Reschedule(id, _) => {id}
    case MarkWaiting(id, _) => {id}
    case WriteSignal(id, _, _) => {id}
    case Finish(id, _, parentInfo) => {id} + if parentInfo.Some? then {parentInfo.value.workflowId} else {}
  }

  predicate SameRow(s: Store, t: Store, id: Id) {
    (id in t.rows <==> id in s.rows) && (id in s.rows && id in t.rows ==> t.rows[id] == s.rows[id])
  }

  /** Rows it does not touch stay as they are, and nothing that can be awaited reaches their logs. */
  lemma CommitFrame(s: Store, now: Time, lockDuration: Time, tx: Tx, id: Id)
    requires Valid(s, tx) && Allowed(s, Engine(tx)) && id !in Touched(s, tx)
    ensures SameRow(s, Commit(s, now, lockDuration, tx), id)
    ensures forall q: Query :: IsAwaitable(q) ==> First(Commit(s, now, lockDuration, tx).Log(id), q) == First(s.Log(id), q)
  {
    var t := Commit(s, now, lockDuration, tx);
    if tx.WriteEvent? {
      AppendScans(s.Log(tx.id), tx.event);
    } else if tx.CreateChild? && tx.child !in s.rows {
      AppendScans(s.Log(tx.parent), ChildStarted(tx.step, tx.child, tx.name, tx.input));
    }
    hide First;
  }

  // ----- The invariant of an interleaving -----

  /** An open transaction is where it would be had it executed all its statements just now. */
  ghost predicate SessionOk(lockDuration: Time, s: Store, x: Session) {
    && x.work.Engine? && Allowed(s, x.work)
    && x.at <= |Statements(lockDuration, x)| && x == RunTo(lockDuration, s, x.work, x.began, x.at)
    && (forall i :: 0 <= i < x.at ==> !RunTo(lockDuration, s, x.work, x.began, i).stopped)
    && (forall i :: 0 <= i < x.at ==> Passes(s, x, Statements(lockDuration, x)[i]))
  }

  ghost predicate AllCompatible(a: set<Lock>, b: set<Lock>) {
    forall x, y :: x in a && y in b ==> Compatible(x, y)
  }

  ghost predicate LocksApart(w: World) {
    forall k, m :: k in w.sessions && m in w.sessions && k != m ==>
      AllCompatible(w.sessions[k].held, w.sessions[m].held)
  }

  ghost predicate WorldOk(lockDuration: Time, w: World) {
    && w.store.rows.Keys == w.store.logs.Keys
    && LocksApart(w)
    && forall k {:trigger w.sessions[k]} :: k in w.sessions ==> SessionOk(lockDuration, w.store, w.sessions[k])
  }

  /** Every row a transaction writes exists, or is the one it inserts. */
  predicate RowsExist(s: Store, p: seq<Statement>) {
    forall i :: 0 <= i < |p| ==> (p[i].UpdateRow? || p[i].ClaimRow? ==> p[i].id in s.rows)
  }

  lemma AllowedRowsExist(lockDuration: Time, s: Store, tx: Tx, began: Time)
    requires Allowed(s, Engine(tx))
    ensures RowsExist(s, Program(Engine(tx), began, lockDuration))
  {
  }

  /** The locks a session has taken stay with it. */
  lemma {:induction false} HeldSoFar(lockDuration: Time, s: Store, work: Work, began: Time, n: nat, i: nat)
    requires n <= |Program(work, began, lockDuration)| && RowsExist(s, Program(work, began, lockDuration)) && i < n
    ensures var stmt := Program(work, began, lockDuration)[i];
      LockOf(s, stmt).Some? ==> LockOf(s, stmt).value in RunTo(lockDuration, s, work, began, n).held
  {
    hide Program, First;
    if i < n - 1 {
      HeldSoFar(lockDuration, s, work, began, n - 1, i);
    }
  }

  /** The session keeps everybody else from writing the row. */
  predicate Guards(x: Session, id: Id) {
    Lock(id, NoKeyUpdate) in x.held || Lock(id, ForUpdate) in x.held
  }

  /** A session that has finished guards the rows its transaction touches. */
  lemma HeldAtEnd(lockDuration: Time, s: Store, x: Session)
    requires SessionOk(lockDuration, s, x) && Finished(lockDuration, x)
    ensures forall id :: id in Touched(s, x.work.tx) ==> Guards(x, id)
  {
    var p := Statements(lockDuration, x);
    AllowedRowsExist(lockDuration, s, x.work.tx, x.began);
    forall i | 0 <= i < x.at
      ensures LockOf(s, p[i]).Some? ==> LockOf(s, p[i]).value in x.held
    {
      HeldSoFar(lockDuration, s, x.work, x.began, x.at, i);
    }
    if x.stopped {
      StoppedLate(lockDuration, s, x);
    }
    hide RunTo, Passes, First;
    assert forall i :: 0 <= i < |p| && LockOf(s, p[i]).Some? && LockOf(s, p[i]).value !in x.held ==> i >= x.at;
    var tx := x.work.tx;
    if tx.Finish? {
      assert LockOf(s, p[1]) == Some(Lock(tx.id, NoKeyUpdate));
      if tx.parentInfo.Some? {
        assert LockOf(s, p[3]) == Some(Lock(tx.parentInfo.value.workflowId, NoKeyUpdate));
      }
    } else if tx.WriteSignal? {
      assert LockOf(s, p[1]) == Some(Lock(tx.id, NoKeyUpdate));
    } else if Touched(s, tx) != {} {
      assert LockOf(s, p[0]).Some? ==> Touched(s, tx) == {LockOf(s, p[0]).value.id};
    }
  }

  /** Only a refused mark and a repeated spawn stop early, and not before their first statement. */
  lemma StoppedLate(lockDuration: Time, s: Store, x: Session)
    requires SessionOk(lockDuration, s, x) && x.stopped
    ensures x.work.tx.MarkWaiting? || x.work.tx.CreateChild?
    ensures x.at > 0
  {
    hide First;
    StepOf(lockDuration, s, x.work, x.began, x.at);
  }

  /** When it may commit, a transaction is one the atomic model accepts, a claim still of an eligible row. */
  predicate Admissible(s: Store, now: Time, tx: Tx) {
    Valid(s, tx) && (tx.ClaimWorkflow? ==> s.rows[tx.id].Claimable(now))
  }

  lemma AdmissibleAtEnd(lockDuration: Time, s: Store, x: Session)
    requires SessionOk(lockDuration, s, x) && Finished(lockDuration, x) && s.rows.Keys == s.logs.Keys
    ensures Admissible(s, x.began, x.work.tx)
  {
    if x.stopped {
      StoppedLate(lockDuration, s, x);
    }
    hide RunTo, First, Row.Claimable;
    var p := Statements(lockDuration, x);
    if x.work.tx.CreateWorkflow? || x.work.tx.ClaimWorkflow? {
      assert Passes(s, x, p[0]);
    }
  }

  /** COMMIT has the effect of the atomic transaction on the store as committed at that moment. */
  lemma EffectIsCommit(lockDuration: Time, s: Store, x: Session)
    requires SessionOk(lockDuration, s, x) && Finished(lockDuration, x) && s.rows.Keys == s.logs.Keys
    ensures Valid(s, x.work.tx) && Effect(s, x) == Commit(s, x.began, lockDuration, x.work.tx)
  {
    AdmissibleAtEnd(lockDuration, s, x);
    hide RunTo, First, Valid, Commit, Effect;
    SerialIsAtomic(lockDuration, s, x.work.tx, x.began, x.at);
  }

  // ----- Other commits do not disturb an open transaction -----

  predicate SameReads(s: Store, t: Store, stmt: Statement) {
    && (stmt.UpdateRow? || stmt.ClaimRow? ==> SameRow(s, t, stmt.id))
    && (stmt.InsertRow? ==> (stmt.id in t.rows <==> stmt.id in s.rows))
    && (stmt.StopIfFound? ==> First(t.Log(stmt.id), stmt.awaited) == First(s.Log(stmt.id), stmt.awaited))
  }

  lemma ExecuteSame(lockDuration: Time, s: Store, t: Store, x: Session, stmt: Statement)
    requires SameReads(s, t, stmt)
    ensures Execute(lockDuration, t, x, stmt) == Execute(lockDuration, s, x, stmt)
  {
    hide First;
  }

  lemma {:induction false} RunToSame(lockDuration: Time, s: Store, t: Store, work: Work, began: Time, n: nat)
    requires n <= |Program(work, began, lockDuration)|
    requires forall i :: 0 <= i < n ==> SameReads(s, t, Program(work, began, lockDuration)[i])
    ensures RunTo(lockDuration, t, work, began, n) == RunTo(lockDuration, s, work, began, n)
  {
    hide Program, First, Execute, SameReads;
    if n > 0 {
      RunToSame(lockDuration, s, t, work, began, n - 1);
      ExecuteSame(lockDuration, s, t, RunTo(lockDuration, s, work, began, n - 1), Program(work, began, lockDuration)[n - 1]);
    }
  }

  lemma AllowedLater(s: Store, t: Store, tx: Tx)
    requires Allowed(s, Engine(tx)) && Grows(s, t) && t.rows.Keys == t.logs.Keys && s.rows.Keys == s.logs.Keys
    ensures Allowed(t, Engine(tx))
  {
  }

  /** The row whose log a mark reads is locked before it reads. */
  lemma ReadsUnderLock(lockDuration: Time, tx: Tx, began: Time, i: nat)
    requires i < |Program(Engine(tx), began, lockDuration)|
    ensures var p := Program(Engine(tx), began, lockDuration);
      p[i].StopIfFound? ==> i > 0 && p[0] == LockRow(p[i].id) && tx == MarkWaiting(p[i].id, p[i].awaited)
  {
  }

  lemma OnlyOneGuards(x: Session, y: Session, id: Id)
    requires AllCompatible(x.held, y.held) && Guards(x, id)
    ensures !Guards(y, id)
  {
    forall a, b | a in x.held && b in y.held && a.id == b.id
      ensures a.mode.KeyShare? || b.mode.KeyShare?
    {
      assert Compatible(a, b);
    }
  }

  lemma ReadsKept(lockDuration: Time, s: Store, x: Session, y: Session, i: nat)
    requires SessionOk(lockDuration, s, x) && SessionOk(lockDuration, s, y) && Finished(lockDuration, y)
    requires AllCompatible(x.held, y.held) && i < x.at && Valid(s, y.work.tx)
    ensures SameReads(s, Commit(s, y.began, lockDuration, y.work.tx), Statements(lockDuration, x)[i])
  {
    var stmt := Statements(lockDuration, x)[i];
    AllowedRowsExist(lockDuration, s, x.work.tx, x.began);
    HeldSoFar(lockDuration, s, x.work, x.began, x.at, i);
    HeldSoFar(lockDuration, s, x.work, x.began, x.at, 0);
    ReadsUnderLock(lockDuration, x.work.tx, x.began, i);
    HeldAtEnd(lockDuration, s, y);
    CommitGrows(s, y.began, lockDuration, y.work.tx);
    hide RunTo, First, Valid, Commit, Program, Touched, Passes, RowsExist;
    if stmt.InsertRow? && stmt.id in s.rows {
      return;
    }
    if stmt.UpdateRow? || stmt.ClaimRow? || stmt.InsertRow? || stmt.StopIfFound? {
      assert Guards(x, stmt.id);
      OnlyOneGuards(x, y, stmt.id);
      CommitFrame(s, y.began, lockDuration, y.work.tx, stmt.id);
    }
  }

  lemma Untouched(lockDuration: Time, s: Store, x: Session, y: Session)
    requires SessionOk(lockDuration, s, x) && SessionOk(lockDuration, s, y) && Finished(lockDuration, y)
    requires AllCompatible(x.held, y.held) && s.rows.Keys == s.logs.Keys && Valid(s, y.work.tx)
    ensures SessionOk(lockDuration, Commit(s, y.began, lockDuration, y.work.tx), x)
  {
    var t := Commit(s, y.began, lockDuration, y.work.tx);
    var p := Statements(lockDuration, x);
    CommitGrows(s, y.began, lockDuration, y.work.tx);
    KeysKept(s, y.began, lockDuration, y.work.tx);
    hide First, Valid, Commit, Program, Grows, RunTo, Row.Claimable;
    forall i | 0 <= i < x.at
      ensures SameReads(s, t, p[i]) && Passes(t, x, p[i])
    {
      ReadsKept(lockDuration, s, x, y, i);
      assert Passes(s, x, p[i]);
    }
    AllowedLater(s, t, x.work.tx);
    hide SameReads, Passes, Allowed;
    RunToSame(lockDuration, s, t, x.work, x.began, x.at);
    forall i | 0 <= i < x.at
      ensures !RunTo(lockDuration, t, x.work, x.began, i).stopped
    {
      RunToSame(lockDuration, s, t, x.work, x.began, i);
      assert !RunTo(lockDuration, s, x.work, x.began, i).stopped;
    }
  }

  lemma KeysKept(s: Store, now: Time, lockDuration: Time, tx: Tx)
    requires Valid(s, tx) && s.rows.Keys == s.logs.Keys
    ensures Commit(s, now, lockDuration, tx).rows.Keys == Commit(s, now, lockDuration, tx).logs.Keys
  {
    hide First;
  }

  // ----- Preservation -----

  lemma SessionSteps(lockDuration: Time, s: Store, x: Session)
    requires SessionOk(lockDuration, s, x) && !Finished(lockDuration, x)
    requires Passes(s, x, Statements(lockDuration, x)[x.at])
    ensures SessionOk(lockDuration, s, Execute(lockDuration, s, x, Statements(lockDuration, x)[x.at]))
  {
    hide First, Program, Row.Claimable, Allowed, RunTo;
    var stmt := Statements(lockDuration, x)[x.at];
    var y := Execute(lockDuration, s, x, stmt);
    StepOf(lockDuration, s, x.work, x.began, x.at + 1);
    ExecTakes(lockDuration, s, x, stmt);
    hide Execute;
    forall i | 0 <= i < y.at
      ensures Passes(s, y, Statements(lockDuration, y)[i]) && !RunTo(lockDuration, s, y.work, y.began, i).stopped
    {
      if i < x.at {
        assert Passes(s, x, Statements(lockDuration, x)[i]) && !RunTo(lockDuration, s, x.work, x.began, i).stopped;
      }
    }
  }

  lemma ExecKeeps(lockDuration: Time, w: World, k: SessionId)
    requires WorldOk(lockDuration, w) && CanRun(lockDuration, w, k)
    ensures WorldOk(lockDuration, Next(lockDuration, w, Exec(k)))
  {
    hide First, Program, Valid, Row.Claimable, Allowed, Execute, SessionOk, RunTo, Passes, LockOf;
    var v := Next(lockDuration, w, Exec(k));
    var x := w.sessions[k];
    var stmt := Statements(lockDuration, x)[x.at];
    SessionSteps(lockDuration, w.store, x);
    ExecTakes(lockDuration, w.store, x, stmt);
    forall m, n | m in v.sessions && n in v.sessions && m != n
      ensures AllCompatible(v.sessions[m].held, v.sessions[n].held)
    {
      assert AllCompatible(w.sessions[m].held, w.sessions[n].held);
      if m == k {
        TakenIsCompatible(w, k, n, LockOf(w.store, stmt), v.sessions[k].held);
      } else if n == k {
        TakenIsCompatible(w, k, m, LockOf(w.store, stmt), v.sessions[k].held);
      }
    }
  }

  /** A lock that was granted goes with whatever the others hold. */
  lemma TakenIsCompatible(w: World, k: SessionId, m: SessionId, lock: Option<Lock>, after: set<Lock>)
    requires LocksApart(w) && k in w.sessions && m in w.sessions && k != m
    requires lock.Some? ==> Grants(w, k, lock.value)
    requires forall l :: l in after && l !in w.sessions[k].held ==> lock == Some(l)
    ensures AllCompatible(after, w.sessions[m].held) && AllCompatible(w.sessions[m].held, after)
  {
    forall l, other | l in after && other in w.sessions[m].held
      ensures Compatible(l, other) && Compatible(other, l)
    {
      assert AllCompatible(w.sessions[k].held, w.sessions[m].held);
      if l in w.sessions[k].held {
        assert Compatible(l, other);
      } else {
        assert Compatible(other, lock.value);
      }
    }
  }

  lemma ExecTakes(lockDuration: Time, s: Store, x: Session, stmt: Statement)
    ensures var y := Execute(lockDuration, s, x, stmt);
      && x.held <= y.held && (forall l :: l in y.held && l !in x.held ==> LockOf(s, stmt) == Some(l))
      && y.at == x.at + 1 && y.work == x.work && y.began == x.began
  {
    hide First;
  }

  lemma BeginKeeps(lockDuration: Time, w: World, k: SessionId, work: Work, now: Time)
    requires WorldOk(lockDuration, w) && Possible(lockDuration, w, Begin(k, work, now)) && work.Engine?
    ensures WorldOk(lockDuration, Next(lockDuration, w, Begin(k, work, now)))
  {
    hide First, Program, Valid, Allowed;
    var v := Next(lockDuration, w, Begin(k, work, now));
    forall m | m in v.sessions
      ensures SessionOk(lockDuration, v.store, v.sessions[m])
    {
      if m != k {
        assert SessionOk(lockDuration, w.store, w.sessions[m]);
      }
    }
  }

  lemma CommitKeeps(lockDuration: Time, w: World, k: SessionId)
    requires WorldOk(lockDuration, w) && Possible(lockDuration, w, CommitTx(k))
    ensures WorldOk(lockDuration, Next(lockDuration, w, CommitTx(k)))
    ensures var x := w.sessions[k]; var v := Next(lockDuration, w, CommitTx(k));
      && x.work.Engine? && Admissible(w.store, x.began, x.work.tx)
      && v.store == Commit(w.store, x.began, lockDuration, x.work.tx) && v.order == w.order + [(x.began, x.work.tx)]
  {
    var x := w.sessions[k];
    assert SessionOk(lockDuration, w.store, x);
    EffectIsCommit(lockDuration, w.store, x);
    AdmissibleAtEnd(lockDuration, w.store, x);
    KeysKept(w.store, x.began, lockDuration, x.work.tx);
    var v := Next(lockDuration, w, CommitTx(k));
    hide First, Effect, Commit, Valid, RunTo, SessionOk, Row.Claimable;
    forall m | m in v.sessions
      ensures SessionOk(lockDuration, v.store, v.sessions[m])
    {
      Untouched(lockDuration, w.store, w.sessions[m], x);
    }
  }

  predicate EngineOnly(a: Act) {
    a.Begin? ==> a.work.Engine?
  }

  lemma NextKeeps(lockDuration: Time, w: World, a: Act)
    requires WorldOk(lockDuration, w) && Possible(lockDuration, w, a) && EngineOnly(a)
    ensures WorldOk(lockDuration, Next(lockDuration, w, a))
  {
    match a
    case Begin(k, work, now) => BeginKeeps(lockDuration, w, k, work, now);
    case Exec(k) => ExecKeeps(lockDuration, w, k);
    case CommitTx(k) => CommitKeeps(lockDuration, w, k);
    case Rollback(k) =>
      hide SessionOk;
  }

  // ----- Main results -----

  /** One atomic transaction after the other, in commit order, takes one store to the other. */
  ghost predicate Serial(lockDuration: Time, s: Store, order: seq<(Time, Tx)>, t: Store) {
    if order == [] then t == s
    else
      var n := |order| - 1;
      exists u ::
        && Serial(lockDuration, s, order[..n], u)
        && Admissible(u, order[n].0, order[n].1) && t == Commit(u, order[n].0, lockDuration, order[n].1)
  }

  lemma SerialExtends(lockDuration: Time, s: Store, order: seq<(Time, Tx)>, t: Store, now: Time, tx: Tx)
    requires Serial(lockDuration, s, order, t) && Admissible(t, now, tx)
    ensures Serial(lockDuration, s, order + [(now, tx)], Commit(t, now, lockDuration, tx))
  {
    hide Commit, Admissible;
    var longer := order + [(now, tx)];
    assert longer[..|longer| - 1] == order;
  }

  lemma {:induction false} SerialHolds(lockDuration: Time, s: Store, w: World, acts: seq<Act>)
    requires WorldOk(lockDuration, w) && Serial(lockDuration, s, w.order, w.store)
    requires Interleaving(lockDuration, w, acts) && forall a :: a in acts ==> EngineOnly(a)
    ensures WorldOk(lockDuration, After(lockDuration, w, acts))
    ensures Serial(lockDuration, s, After(lockDuration, w, acts).order, After(lockDuration, w, acts).store)
    decreases |acts|
  {
    if acts != [] {
      var a := acts[0];
      assert EngineOnly(a);
      var v := Next(lockDuration, w, a);
      NextKeeps(lockDuration, w, a);
      if a.CommitTx? {
        CommitKeeps(lockDuration, w, a.k);
        SerialExtends(lockDuration, s, w.order, w.store, w.sessions[a.k].began, w.sessions[a.k].work.tx);
      }
      hide Next, Possible, WorldOk, Serial;
      SerialHolds(lockDuration, s, v, acts[1..]);
    }
  }

  /** No transaction is open. */
  function Quiet(s: Store): World {
    World(s, map[], [], map[])
  }

  /**
   * Statements interleave as if each transaction happened at once: under READ COMMITTED and row locks,
   * every interleaving of any number of the engine's transactions leaves the store that the same
   * transactions leave when they are executed atomically, one by one, in the order of their commits.
   */
  lemma StatementsAreAtomic(lockDuration: Time, s: Store, acts: seq<Act>)
    requires s.rows.Keys == s.logs.Keys
    requires Interleaving(lockDuration, Quiet(s), acts) && forall a :: a in acts ==> EngineOnly(a)
    ensures Serial(lockDuration, s, After(lockDuration, Quiet(s), acts).order, After(lockDuration, Quiet(s), acts).store)
  {
    SerialHolds(lockDuration, s, Quiet(s), acts);
  }

  // ----- No lost wakeup -----

  /** A WAITING row was marked since its last wake, and nothing it was marked for is in its log. */
  ghost predicate NothingMissed(w: World, id: Id)
    requires id in w.store.rows
  {
    && (w.store.rows[id].status == WAITING ==> w.Awaiting(id) != {})
    && forall q :: q in w.Awaiting(id) ==> IsAwaitable(q) && First(w.store.Log(id), q).None?
  }

  ghost predicate AwaitOk(w: World) {
    forall id {:trigger NothingMissed(w, id)} :: id in w.store.rows ==> NothingMissed(w, id)
  }

  /** A mark is refused exactly if the event is there when it commits, not only when it looked. */
  lemma RefusedExactlyIfFound(lockDuration: Time, s: Store, x: Session)
    requires SessionOk(lockDuration, s, x) && Finished(lockDuration, x) && x.work.tx.MarkWaiting?
    ensures x.stopped <==> First(s.Log(x.work.tx.id), x.work.tx.awaited).Some?
  {
    hide First, RunTo, Valid;
    StepOf(lockDuration, s, x.work, x.began, 1);
    StepOf(lockDuration, s, x.work, x.began, 2);
    StepOf(lockDuration, s, x.work, x.began, 3);
    assert x.at >= 2;
  }

  lemma CommitAwaits(lockDuration: Time, w: World, x: Session, id: Id)
    requires w.store.rows.Keys == w.store.logs.Keys && AwaitOk(w)
    requires x.work.Engine? && Valid(w.store, x.work.tx) && Allowed(w.store, x.work)
    requires x.work.tx.MarkWaiting? ==> (x.stopped <==> First(w.store.Log(x.work.tx.id), x.work.tx.awaited).Some?)
    requires id in Commit(w.store, x.began, lockDuration, x.work.tx).rows
    requires id !in w.store.rows ==> w.Awaiting(id) == {}
    ensures var v := World(Commit(w.store, x.began, lockDuration, x.work.tx), w.sessions, w.order, AwaitingAfter(w, x));
      NothingMissed(v, id)
  {
    hide First;
    if id !in Touched(w.store, x.work.tx) {
      CommitFrame(w.store, x.began, lockDuration, x.work.tx, id);
      UntouchedAwaits(lockDuration, w, x, id);
    } else if id in w.store.rows {
      assert NothingMissed(w, id);
      TouchedRow(w.store, x.began, lockDuration, x.work.tx, id);
      hide Commit;
    }
  }

  /** A transaction that writes a row leaves its log alone unless it wakes or ends it, and only a mark suspends it. */
  lemma TouchedRow(s: Store, now: Time, lockDuration: Time, tx: Tx, id: Id)
    requires Valid(s, tx) && Allowed(s, Engine(tx)) && id in Touched(s, tx) && id in s.rows
    ensures var t := Commit(s, now, lockDuration, tx);
      && id in t.rows
      && (tx.WriteSignal? || tx.Finish? ==> t.rows[id].status != WAITING)
      && (!tx.WriteSignal? && !tx.Finish? ==> t.Log(id) == s.Log(id))
      && (t.rows[id].status == WAITING ==>
            s.rows[id].status == WAITING || (tx.MarkWaiting? && First(s.Log(id), tx.awaited).None?))
  {
    hide First;
  }

  lemma UntouchedAwaits(lockDuration: Time, w: World, x: Session, id: Id)
    requires AwaitOk(w) && x.work.Engine? && Valid(w.store, x.work.tx) && id !in Touched(w.store, x.work.tx)
    requires var t := Commit(w.store, x.began, lockDuration, x.work.tx);
      && id in t.rows && SameRow(w.store, t, id)
      && forall q: Query :: IsAwaitable(q) ==> First(t.Log(id), q) == First(w.store.Log(id), q)
    ensures NothingMissed(
      World(Commit(w.store, x.began, lockDuration, x.work.tx), w.sessions, w.order, AwaitingAfter(w, x)), id)
  {
    hide First, Commit, Valid;
    assert NothingMissed(w, id);
    var v := World(Commit(w.store, x.began, lockDuration, x.work.tx), w.sessions, w.order, AwaitingAfter(w, x));
    assert v.Awaiting(id) == w.Awaiting(id);
  }

  ghost predicate AwaitingRows(w: World) {
    forall id :: id in w.awaiting ==> id in w.store.rows
  }

  lemma NextAwaits(lockDuration: Time, w: World, a: Act)
    requires WorldOk(lockDuration, w) && Possible(lockDuration, w, a) && EngineOnly(a) && AwaitOk(w) && AwaitingRows(w)
    ensures AwaitOk(Next(lockDuration, w, a)) && AwaitingRows(Next(lockDuration, w, a))
  {
    hide First, Effect, RunTo, Row.Claimable, Passes, Execute, Program;
    var v := Next(lockDuration, w, a);
    if a.CommitTx? {
      var x := w.sessions[a.k];
      assert SessionOk(lockDuration, w.store, x);
      CommitKeeps(lockDuration, w, a.k);
      if x.work.tx.MarkWaiting? {
        RefusedExactlyIfFound(lockDuration, w.store, x);
      }
      CommitGrows(w.store, x.began, lockDuration, x.work.tx);
      hide First, Effect, RunTo, Row.Claimable, Commit, NothingMissed, Grows;
      forall id | id in v.store.rows
        ensures NothingMissed(v, id)
      {
        CommitAwaits(lockDuration, w, x, id);
        SameWatch(World(v.store, w.sessions, w.order, v.awaiting), v, id);
      }
    } else {
      hide First;
      forall id | id in v.store.rows
        ensures NothingMissed(v, id)
      {
        assert NothingMissed(w, id);
      }
    }
  }

  lemma SameWatch(w: World, v: World, id: Id)
    requires w.store == v.store && w.awaiting == v.awaiting && id in w.store.rows && NothingMissed(w, id)
    ensures NothingMissed(v, id)
  {
    hide First;
  }

  lemma {:induction false} AwaitHolds(lockDuration: Time, w: World, acts: seq<Act>)
    requires WorldOk(lockDuration, w) && AwaitOk(w) && AwaitingRows(w)
    requires Interleaving(lockDuration, w, acts) && forall a :: a in acts ==> EngineOnly(a)
    ensures AwaitOk(After(lockDuration, w, acts))
    decreases |acts|
  {
    if acts != [] {
      assert EngineOnly(acts[0]);
      NextKeeps(lockDuration, w, acts[0]);
      NextAwaits(lockDuration, w, acts[0]);
      hide Next, Possible, WorldOk, AwaitOk, AwaitingRows;
      AwaitHolds(lockDuration, Next(lockDuration, w, acts[0]), acts[1..]);
    }
  }

  /**
   * No lost wakeup. Over every interleaving of any number of marks, signals, child completions and all
   * other transactions, a row that is WAITING was marked after it was last woken, and none of the
   * events it was marked for is in its log.
   */
  lemma NoLostWakeup(lockDuration: Time, s: Store, acts: seq<Act>, id: Id)
    requires s.rows.Keys == s.logs.Keys && forall x :: x in s.rows ==> s.rows[x].status != WAITING
    requires Interleaving(lockDuration, Quiet(s), acts) && forall a :: a in acts ==> EngineOnly(a)
    requires var w := After(lockDuration, Quiet(s), acts); id in w.store.rows && w.store.rows[id].status == WAITING
    ensures var w := After(lockDuration, Quiet(s), acts);
      w.Awaiting(id) != {} && forall q :: q in w.Awaiting(id) ==> Count(w.store.Log(id), q) == 0
  {
    AwaitHolds(lockDuration, Quiet(s), acts);
    var w := After(lockDuration, Quiet(s), acts);
    hide After, Interleaving;
    assert NothingMissed(w, id);
    forall q | q in w.Awaiting(id)
      ensures Count(w.store.Log(id), q) == 0
    {
      ScanIsExact(w.store.Log(id), q);
    }
  }

  // ----- Why the mark is not one UPDATE -----

  /** The subquery looks, the signal commits, the update goes through: the row waits for what it has. */
  function LosingInterleaving(id: Id, t: string, payload: Json, now: Time): seq<Act> {
    [Begin(0, SingleUpdate(id, Received(t)), now), Exec(0),
     Begin(1, Engine(WriteSignal(id, t, payload)), now), Exec(1), Exec(1), CommitTx(1),
     Exec(0), CommitTx(0)]
  }

  lemma Then(lockDuration: Time, w: World, a: Act, rest: seq<Act>)
    requires Possible(lockDuration, w, a) && Interleaving(lockDuration, Next(lockDuration, w, a), rest)
    ensures Interleaving(lockDuration, w, [a] + rest)
    ensures After(lockDuration, w, [a] + rest) == After(lockDuration, Next(lockDuration, w, a), rest)
  {
    assert ([a] + rest)[1..] == rest;
  }

  /** Written as one UPDATE with NOT EXISTS, the mark loses the wakeup, from any row whose signal has not come yet. */
  lemma SingleUpdateLosesWakeup(lockDuration: Time, s: Store, id: Id, t: string, payload: Json, now: Time)
    requires s.Has(id) && Count(s.Log(id), Received(t)) == 0
    ensures var acts := LosingInterleaving(id, t, payload, now);
      && Interleaving(lockDuration, Quiet(s), acts)
      && var w := After(lockDuration, Quiet(s), acts);
        && w.sessions == map[] && w.store.Has(id) && w.store.rows[id].status == WAITING
        && Count(w.store.Log(id), Received(t)) == 1
  {
    var acts := LosingInterleaving(id, t, payload, now);
    ScanIsExact(s.Log(id), Received(t));
    CountOfAppend(s.Log(id), Signal(t, payload), Received(t));
    hide First, Count;
    AppendedNone(s);
    var w0 := Quiet(s);
    var w1 := Next(lockDuration, w0, acts[0]);
    var w2 := Next(lockDuration, w1, acts[1]);
    assert w2.sessions[0].at == 1 && !w2.sessions[0].stopped;
    var w3 := Next(lockDuration, w2, acts[2]);
    var w4 := Next(lockDuration, w3, acts[3]);
    var w5 := Next(lockDuration, w4, acts[4]);
    assert w5.sessions[1].inserts == [Insert(id, Signal(t, payload))];
    AppendedOne(s.(rows := s.rows + w5.sessions[1].rows), Insert(id, Signal(t, payload)));
    var w6 := Next(lockDuration, w5, acts[5]);
    var w7 := Next(lockDuration, w6, acts[6]);
    AppendedNone(w7.store);
    var w8 := Next(lockDuration, w7, acts[7]);
    assert w8.sessions == map[];
    hide Interleaving, After, Next, Possible;
    EmptyInterleaving(lockDuration, w8);
    assert forall i :: 0 <= i < 8 ==> [acts[i]] + acts[i + 1..] == acts[i..];
    assert acts[8..] == [] && acts[0..] == acts;
    Then(lockDuration, w7, acts[7], acts[8..]);
    Then(lockDuration, w6, acts[6], acts[7..]);
    Then(lockDuration, w5, acts[5], acts[6..]);
    Then(lockDuration, w4, acts[4], acts[5..]);
    Then(lockDuration, w3, acts[3], acts[4..]);
    Then(lockDuration, w2, acts[2], acts[3..]);
    Then(lockDuration, w1, acts[1], acts[2..]);
    Then(lockDuration, w0, acts[0], acts[1..]);
  }

  lemma EmptyInterleaving(lockDuration: Time, w: World)
    ensures Interleaving(lockDuration, w, []) && After(lockDuration, w, []) == w
  {
  }

  // ----- No deadlock -----

  /** A transaction waits while another holds a lock that conflicts with the one its next statement needs. */
  predicate Waiting(lockDuration: Time, w: World, k: SessionId) {
    && k in w.sessions && !Finished(lockDuration, w.sessions[k])
    && w.sessions[k].at < |Statements(lockDuration, w.sessions[k])|
    && var lock := LockOf(w.store, Statements(lockDuration, w.sessions[k])[w.sessions[k].at]);
      lock.Some? && !Grants(w, k, lock.value)
  }

  function Wanted(lockDuration: Time, w: World, k: SessionId): Lock
    requires Waiting(lockDuration, w, k)
  {
    LockOf(w.store, Statements(lockDuration, w.sessions[k])[w.sessions[k].at]).value
  }

  lemma {:induction false} HeldOnly(lockDuration: Time, s: Store, work: Work, began: Time, n: nat, l: Lock)
    requires n <= |Program(work, began, lockDuration)| && l in RunTo(lockDuration, s, work, began, n).held
    ensures exists i :: 0 <= i < n && LockOf(s, Program(work, began, lockDuration)[i]) == Some(l)
  {
    hide Program, Execute, First;
    assert n > 0;
    var before := RunTo(lockDuration, s, work, began, n - 1);
    ExecTakes(lockDuration, s, before, Program(work, began, lockDuration)[n - 1]);
    if l in before.held {
      HeldOnly(lockDuration, s, work, began, n - 1, l);
    }
  }

  function Strength(mode: Mode): nat {
    match mode
    case KeyShare => 0
    case NoKeyUpdate => 1
    case ForUpdate => 2
  }

  /** The order in which locks are taken: towards the root, where ids are shorter. */
  function Rank(l: Lock): nat {
    3 * |l.id| + Strength(l.mode)
  }

  /**
   * A transaction goes from a workflow to its parent. On one row it can only go from referring to it to
   * updating it; or it had its first lock on that row, or has found the row it was to insert.
   */
  lemma LockOrder(lockDuration: Time, s: Store, tx: Tx, began: Time, i: nat, j: nat)
    requires Allowed(s, Engine(tx)) && i < j < |Program(Engine(tx), began, lockDuration)|
    ensures var p := Program(Engine(tx), began, lockDuration); var a, b := LockOf(s, p[i]), LockOf(s, p[j]);
      a.Some? && b.Some? ==>
        || |b.value.id| < |a.value.id|
        || (b.value.id == a.value.id && !b.value.mode.ForUpdate?)
        || LockOf(s, p[0]) == Some(Lock(b.value.id, ForUpdate))
        || (tx.CreateChild? && tx.child in s.rows)
  {
  }

  lemma LocksGoUp(lockDuration: Time, s: Store, x: Session, i: nat)
    requires SessionOk(lockDuration, s, x) && !Finished(lockDuration, x) && i < x.at
    ensures x.at < |Statements(lockDuration, x)|
    ensures var p := Statements(lockDuration, x); var a, b := LockOf(s, p[i]), LockOf(s, p[x.at]);
      a.Some? && b.Some? ==>
        || |b.value.id| < |a.value.id|
        || (b.value.id == a.value.id && !b.value.mode.ForUpdate?)
        || Lock(b.value.id, ForUpdate) in x.held
  {
    AllowedRowsExist(lockDuration, s, x.work.tx, x.began);
    HeldSoFar(lockDuration, s, x.work, x.began, x.at, 0);
    LockOrder(lockDuration, s, x.work.tx, x.began, i, x.at);
    if x.work.tx.CreateChild? {
      ChildIsNew(lockDuration, s, x);
    }
    hide RunTo, First, Passes, Program, Allowed, LockOf;
  }

  /** A spawn that goes on after its first statement has found its id free. */
  lemma ChildIsNew(lockDuration: Time, s: Store, x: Session)
    requires SessionOk(lockDuration, s, x) && !Finished(lockDuration, x) && x.at > 0 && x.work.tx.CreateChild?
    ensures x.work.tx.child !in s.rows
  {
    hide Passes, First, Allowed;
    StepOf(lockDuration, s, x.work, x.began, 1);
    assert x.at > 1 ==> !RunTo(lockDuration, s, x.work, x.began, 1).stopped;
    hide RunTo;
  }

  /** A lock at least as strong as one a session holds on the row already is never waited for. */
  lemma HeldIsGranted(w: World, h: SessionId, mine: Lock, wanted: Lock)
    requires LocksApart(w) && h in w.sessions && mine in w.sessions[h].held
    requires mine.id == wanted.id && Strength(wanted.mode) <= Strength(mine.mode)
    ensures Grants(w, h, wanted)
  {
    forall m, other | m in w.sessions && m != h && other in w.sessions[m].held
      ensures Compatible(other, wanted)
    {
      assert AllCompatible(w.sessions[m].held, w.sessions[h].held) && Compatible(other, mine);
    }
  }

  /** Following who holds what the other waits for, wanted locks get lower and lower, until someone does not wait. */
  lemma {:induction false} SomeoneGoesOn(lockDuration: Time, w: World, k: SessionId) returns (m: SessionId)
    requires WorldOk(lockDuration, w) && k in w.sessions
    ensures m in w.sessions && !Waiting(lockDuration, w, m)
    decreases if Waiting(lockDuration, w, k) then Rank(Wanted(lockDuration, w, k)) + 1 else 0
  {
    m := k;
    if Waiting(lockDuration, w, k) {
      var wanted := Wanted(lockDuration, w, k);
      var h, l :| h in w.sessions && h != k && l in w.sessions[h].held && !Compatible(l, wanted);
      if Waiting(lockDuration, w, h) {
        WaitsHigher(lockDuration, w, h, l, wanted);
      }
      m := SomeoneGoesOn(lockDuration, w, h);
    }
  }

  lemma WaitsHigher(lockDuration: Time, w: World, h: SessionId, l: Lock, wanted: Lock)
    requires WorldOk(lockDuration, w) && Waiting(lockDuration, w, h) && l in w.sessions[h].held
    requires !Compatible(l, wanted)
    ensures Rank(Wanted(lockDuration, w, h)) < Rank(wanted)
  {
    var x, b := w.sessions[h], Wanted(lockDuration, w, h);
    assert SessionOk(lockDuration, w.store, x);
    HeldOnly(lockDuration, w.store, x.work, x.began, x.at, l);
    hide Program, RunTo, First, Passes, Valid, Allowed;
    var i :| 0 <= i < x.at && LockOf(w.store, Statements(lockDuration, x)[i]) == Some(l);
    LocksGoUp(lockDuration, w.store, x, i);
    if Lock(b.id, ForUpdate) in x.held {
      HeldIsGranted(w, h, Lock(b.id, ForUpdate), b);
    } else if b.id == l.id && Strength(b.mode) <= Strength(l.mode) {
      HeldIsGranted(w, h, l, b);
    }
  }

  /** No deadlock: whenever transactions are open, one of them is not waiting for a lock. */
  lemma NoDeadlock(lockDuration: Time, s: Store, acts: seq<Act>)
    requires s.rows.Keys == s.logs.Keys
    requires Interleaving(lockDuration, Quiet(s), acts) && forall a :: a in acts ==> EngineOnly(a)
    requires After(lockDuration, Quiet(s), acts).sessions != map[]
    ensures var w := After(lockDuration, Quiet(s), acts);
      exists k :: k in w.sessions && !Waiting(lockDuration, w, k)
  {
    SerialHolds(lockDuration, s, Quiet(s), acts);
    var w := After(lockDuration, Quiet(s), acts);
    hide After, Interleaving, Waiting, WorldOk;
    var k :| k in w.sessions;
    var m := SomeoneGoesOn(lockDuration, w, k);
  }
}
