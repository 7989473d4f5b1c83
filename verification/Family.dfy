/**
 * What every interleaving keeps, with no assumption on leases: parents and children, the delivery
 * of child outcomes, and the fit between a run and the store. Overlapping runs of one workflow and
 * crashes at any point are allowed throughout.
 */
module Family {
  import opened Wrappers
  import opened Ids
  import opened Serialization
  import opened Events
  import opened Transactions
  import opened Workflows
  import opened Machine
  import opened Cluster

  // ----- The invariant of the store -----

  function ParentInfoOf(row: Row, id: Id): Option<ParentInfo> {
    match row.parent
    case None => None
    case Some(p) => Some(ParentInfo(p, id))
  }

  /** Every log begins with its STARTED event, which names the parent of the row. */
  ghost predicate StartedOk(s: Store, id: Id)
    requires s.Has(id)
  {
    && s.logs[id] != [] && s.logs[id][0].Started?
    && First(s.logs[id], IsStarted) == Some(s.logs[id][0])
    && s.logs[id][0].parent == ParentInfoOf(s.rows[id], id)
  }

  ghost predicate IsChildOf(s: Store, child: Id, parent: Id) {
    child in s.rows && s.rows[child].parent == Some(parent)
  }

  /** A row has a root id, or was spawned by exactly one CHILD_STARTED event of its parent's log. */
  ghost predicate OriginOk(s: Store, id: Id)
    requires s.Has(id)
  {
    match s.rows[id].parent
    case None => RootId(id)
    case Some(p) =>
      s.Has(p) && exists i: nat :: id == ChildId(p, i) && Count(s.logs[p], AtStep(i, ChildStartedKind)) == 1
  }

  /** A CHILD_STARTED event stands for the row, name and input it announces, once per step. */
  ghost predicate SpawnsOk(s: Store, id: Id)
    requires s.Has(id)
  {
    && (forall i: nat :: Count(s.logs[id], AtStep(i, ChildStartedKind)) <= 1)
    && forall e :: e in s.logs[id] && e.ChildStarted? ==>
      && e.childId == ChildId(id, e.step)
      && s.Has(e.childId) && IsChildOf(s, e.childId, id)
      && s.rows[e.childId].name == e.name
      && s.logs[e.childId] != [] && s.logs[e.childId][0] == Started(e.input, Some(ParentInfo(id, e.childId)))
  }

  /** The outcome the first terminal event of a log reports. */
  function FirstOutcome(log: Log): Option<ChildOutcome> {
    match First(log, Terminal)
    case Some(WorkflowCompleted(result)) => Some(ChildCompleted(result))
    case Some(WorkflowFailed(reason)) => Some(ChildFailed(reason))
    case _ => None
  }

  function FirstDelivery(log: Log, child: Id): Option<ChildOutcome> {
    match First(log, ChildResult(child))
    case Some(ChildSignal(_, outcome)) => Some(outcome)
    case _ => None
  }

  /** One completion signal per terminal event of the child, the first of each agreeing; none from strangers. */
  ghost predicate DeliveriesOk(s: Store, parent: Id, child: Id)
    requires s.Has(parent)
  {
    if IsChildOf(s, child, parent) && child in s.logs then
      && Count(s.logs[parent], ChildResult(child)) == Count(s.logs[child], Terminal)
      && FirstDelivery(s.logs[parent], child) == FirstOutcome(s.logs[child])
    else Count(s.logs[parent], ChildResult(child)) == 0
  }

  /** A terminal status is backed by a terminal event. */
  ghost predicate TerminalOk(s: Store, id: Id)
    requires s.Has(id)
  {
    s.rows[id].IsTerminal() ==> Count(s.logs[id], Terminal) > 0
  }

  ghost predicate StoreInv(s: Store) {
    && s.rows.Keys == s.logs.Keys
    && (forall id {:trigger StartedOk(s, id)} :: id in s.rows ==> StartedOk(s, id))
    && (forall id {:trigger OriginOk(s, id)} :: id in s.rows ==> OriginOk(s, id))
    && (forall id {:trigger SpawnsOk(s, id)} :: id in s.rows ==> SpawnsOk(s, id))
    && (forall id, c {:trigger DeliveriesOk(s, id, c)} :: id in s.rows ==> DeliveriesOk(s, id, c))
    && (forall id {:trigger TerminalOk(s, id)} :: id in s.rows ==> TerminalOk(s, id))
  }

  // ----- Transactions keep it -----

  /** Events written by `write_event`: no start, spawn, delivery or end of a workflow. */
  predicate OwnEvent(e: Event) {
    !e.Started? && !e.ChildStarted? && !e.ChildSignal? && !e.WorkflowCompleted? && !e.WorkflowFailed?
  }

  /** How the engine calls its transactions. */
  ghost predicate Proper(s: Store, tx: Tx) {
    match tx
    case CreateWorkflow(id, _, _) => RootId(id)
    case CreateChild(parent, step, child, _, _) => child == ChildId(parent, step)
    case WriteEvent(_, e) => OwnEvent(e)
    case Finish(id, _, parentInfo) => id in s.rows && parentInfo == ParentInfoOf(s.rows[id], id)
    case _ => true
  }

  lemma OwnEventScans(log: Log, e: Event)
    requires OwnEvent(e)
    ensures Count(log + [e], Terminal) == Count(log, Terminal) && FirstOutcome(log + [e]) == FirstOutcome(log)
    ensures forall c :: Count(log + [e], ChildResult(c)) == Count(log, ChildResult(c))
    ensures forall c :: FirstDelivery(log + [e], c) == FirstDelivery(log, c)
  {
    AppendScans(log, e);
  }

  lemma TerminalScans(log: Log, outcome: ChildOutcome)
    ensures var more := log + [TerminalEvent(outcome)];
      && Count(more, Terminal) == Count(log, Terminal) + 1
      && FirstOutcome(more) == (if Count(log, Terminal) > 0 then FirstOutcome(log) else Some(outcome))
      && (forall c :: Count(more, ChildResult(c)) == Count(log, ChildResult(c)))
      && (forall c :: FirstDelivery(more, c) == FirstDelivery(log, c))
  {
    AppendScans(log, TerminalEvent(outcome));
    ScanIsExact(log, Terminal);
  }

  lemma DeliveryScans(log: Log, id: Id, outcome: ChildOutcome)
    ensures var more := log + [ChildSignal(id, outcome)];
      && Count(more, Terminal) == Count(log, Terminal) && FirstOutcome(more) == FirstOutcome(log)
      && Count(more, ChildResult(id)) == Count(log, ChildResult(id)) + 1
      && FirstDelivery(more, id) == (if Count(log, ChildResult(id)) > 0 then FirstDelivery(log, id) else Some(outcome))
      && (forall c | c != id :: Count(more, ChildResult(c)) == Count(log, ChildResult(c)))
      && (forall c | c != id :: FirstDelivery(more, c) == FirstDelivery(log, c))
  {
    AppendScans(log, ChildSignal(id, outcome));
    ScanIsExact(log, ChildResult(id));
  }

  lemma SpawnScans(log: Log, e: Event)
    requires e.ChildStarted?
    ensures var q0 := AtStep(e.step, ChildStartedKind);
      && Count(log + [e], q0) == Count(log, q0) + 1
      && forall q: Query | q != q0 :: Count(log + [e], q) == Count(log, q) && First(log + [e], q) == First(log, q)
  {
    AppendScans(log, e);
  }

  /** Scans for starts and spawns of every log answer as before, and no row changed. */
  ghost predicate SameOrigins(s: Store, t: Store) {
    && t.rows == s.rows && s.logs.Keys == t.logs.Keys
    && (forall x :: x in s.logs ==> s.logs[x] <= t.logs[x])
    && (forall x :: x in s.logs ==> First(t.logs[x], IsStarted) == First(s.logs[x], IsStarted))
    && (forall x, i: nat :: x in s.logs ==>
          Count(t.logs[x], AtStep(i, ChildStartedKind)) == Count(s.logs[x], AtStep(i, ChildStartedKind)))
    && forall x, e :: x in s.logs && e in t.logs[x] && e.ChildStarted? ==> e in s.logs[x]
  }

  lemma OriginsKept(s: Store, t: Store)
    requires StoreInv(s) && SameOrigins(s, t)
    ensures forall x {:trigger StartedOk(t, x)} :: x in t.rows ==> StartedOk(t, x)
    ensures forall x {:trigger OriginOk(t, x)} :: x in t.rows ==> OriginOk(t, x)
    ensures forall x {:trigger SpawnsOk(t, x)} :: x in t.rows ==> SpawnsOk(t, x)
  {
    forall x | x in t.rows
      ensures StartedOk(t, x) && OriginOk(t, x) && SpawnsOk(t, x)
    {
      OriginKept(s, t, x);
    }
  }

  lemma OriginKept(s: Store, t: Store, x: Id)
    requires StoreInv(s) && SameOrigins(s, t) && x in s.rows
    ensures StartedOk(t, x) && OriginOk(t, x) && SpawnsOk(t, x)
  {
    hide First, Count, ChildId, Matches, FirstOutcome, FirstDelivery;
    assert StartedOk(s, x) && OriginOk(s, x) && SpawnsOk(s, x);
    forall e | e in t.logs[x] && e.ChildStarted?
      ensures s.Has(e.childId) && s.logs[e.childId] != [] && t.logs[e.childId][0] == s.logs[e.childId][0]
    {
      assert e in s.logs[x];
      assert s.logs[e.childId] <= t.logs[e.childId];
    }
  }

  lemma AppendKeepsOrigins(s: Store, id: Id, e: Event)
    requires id in s.logs && First(s.logs[id], IsStarted).Some? && !e.ChildStarted? && !e.Started?
    ensures SameOrigins(s, s.Append(id, e))
  {
    hide First, Count, ChildId;
    AppendScans(s.logs[id], e);
  }

  lemma AppendOwn(s: Store, id: Id, e: Event)
    requires StoreInv(s) && id in s.rows && OwnEvent(e)
    ensures StoreInv(s.Append(id, e))
  {
    hide First, Count, ChildId, Matches, FirstOutcome, FirstDelivery, OriginOk, SpawnsOk;
    var t := s.Append(id, e);
    assert StartedOk(s, id);
    AppendKeepsOrigins(s, id, e);
    OwnEventScans(s.logs[id], e);
    OriginsKept(s, t);
    forall x | x in t.rows
      ensures TerminalOk(t, x)
    {
      assert TerminalOk(s, x);
    }
    forall x, c | x in t.rows
      ensures DeliveriesOk(t, x, c)
    {
      assert DeliveriesOk(s, x, c);
    }
  }

  lemma UpdateRow(s: Store, id: Id, row: Row)
    requires StoreInv(s) && id in s.rows
    requires row.name == s.rows[id].name && row.parent == s.rows[id].parent
    requires row.IsTerminal() ==> Count(s.logs[id], Terminal) > 0
    ensures StoreInv(s.Update(id, row))
  {
    hide First, Count, ChildId, Matches, FirstOutcome, FirstDelivery;
    var t := s.Update(id, row);
    forall x | x in t.rows
      ensures StartedOk(t, x) && TerminalOk(t, x) && SpawnsOk(t, x) && OriginOk(t, x)
    {
      assert StartedOk(s, x) && TerminalOk(s, x) && SpawnsOk(s, x) && OriginOk(s, x);
    }
    forall x, c | x in t.rows
      ensures DeliveriesOk(t, x, c)
    {
      assert DeliveriesOk(s, x, c);
    }
  }

  /** The end of a root workflow. */
  lemma AppendTerminal(s: Store, id: Id, outcome: ChildOutcome)
    requires StoreInv(s) && id in s.rows && s.rows[id].parent.None?
    ensures StoreInv(s.Append(id, TerminalEvent(outcome)))
    ensures Count(s.Append(id, TerminalEvent(outcome)).logs[id], Terminal) > 0
  {
    hide First, Count, ChildId, Matches, FirstOutcome, FirstDelivery, OriginOk, SpawnsOk;
    var e := TerminalEvent(outcome);
    var t := s.Append(id, e);
    assert StartedOk(s, id);
    AppendKeepsOrigins(s, id, e);
    TerminalScans(s.logs[id], outcome);
    OriginsKept(s, t);
    forall x | x in t.rows
      ensures TerminalOk(t, x)
    {
      assert TerminalOk(s, x);
    }
    forall x, c | x in t.rows
      ensures DeliveriesOk(t, x, c)
    {
      assert DeliveriesOk(s, x, c);
    }
  }

  lemma ParentIsAnother(s: Store, id: Id)
    requires StoreInv(s) && id in s.rows && s.rows[id].parent.Some?
    ensures s.rows[id].parent.value != id && s.Has(s.rows[id].parent.value)
    ensures |s.rows[id].parent.value| < |id|
  {
    hide First, Count;
    assert OriginOk(s, id);
    var p := s.rows[id].parent.value;
    var k: nat :| id == ChildId(p, k) && Count(s.logs[p], AtStep(k, ChildStartedKind)) == 1;
    ChildIdIsLonger(p, k);
  }

  /** The store after the end of a child and the signal to its parent, before the row updates. */
  function Delivered(s: Store, id: Id, outcome: ChildOutcome, p: Id): Store {
    s.Append(id, TerminalEvent(outcome)).Append(p, ChildSignal(id, outcome))
  }

  lemma DeliveryKeepsOrigins(s: Store, id: Id, outcome: ChildOutcome, p: Id)
    requires StoreInv(s) && id in s.rows && p in s.rows && id != p
    ensures SameOrigins(s, Delivered(s, id, outcome, p))
  {
    hide First, Count, ChildId, Matches, OriginOk, SpawnsOk;
    assert StartedOk(s, id) && StartedOk(s, p);
    var u := s.Append(id, TerminalEvent(outcome));
    AppendKeepsOrigins(s, id, TerminalEvent(outcome));
    AppendKeepsOrigins(u, p, ChildSignal(id, outcome));
  }

  lemma DeliveryKeepsDeliveries(s: Store, id: Id, outcome: ChildOutcome, p: Id, x: Id, c: Id)
    requires StoreInv(s) && id in s.rows && s.rows[id].parent == Some(p) && p in s.rows && id != p && x in s.rows
    ensures DeliveriesOk(Delivered(s, id, outcome, p), x, c)
  {
    hide First, Count, ChildId, Matches, FirstOutcome, FirstDelivery, OriginOk, SpawnsOk, StartedOk;
    TerminalScans(s.logs[id], outcome);
    DeliveryScans(s.logs[p], id, outcome);
    assert DeliveriesOk(s, x, c);
  }

  /** The end of a child and the signal to its parent, in one transaction. */
  lemma AppendDelivery(s: Store, id: Id, outcome: ChildOutcome, p: Id)
    requires StoreInv(s) && id in s.rows && s.rows[id].parent == Some(p)
    ensures id != p && p in s.rows
    ensures StoreInv(Delivered(s, id, outcome, p))
    ensures Count(Delivered(s, id, outcome, p).logs[id], Terminal) > 0
  {
    hide First, Count, ChildId, Matches, FirstOutcome, FirstDelivery, OriginOk, SpawnsOk, StartedOk, DeliveriesOk;
    ParentIsAnother(s, id);
    var t := Delivered(s, id, outcome, p);
    DeliveryKeepsOrigins(s, id, outcome, p);
    OriginsKept(s, t);
    TerminalScans(s.logs[id], outcome);
    DeliveryScans(s.logs[p], id, outcome);
    forall x | x in t.rows
      ensures TerminalOk(t, x)
    {
      assert TerminalOk(s, x);
    }
    forall x, c | x in t.rows
      ensures DeliveriesOk(t, x, c)
    {
      DeliveryKeepsDeliveries(s, id, outcome, p, x, c);
    }
  }

  lemma NewRoot(s: Store, id: Id, name: string, input: Json, now: Time)
    requires StoreInv(s) && id !in s.rows && RootId(id)
    ensures StoreInv(Store(s.rows[id := NewRow(name, None, now)], s.logs[id := [Started(input, None)]]))
  {
    hide First, Count, ChildId, Matches, FirstOutcome, FirstDelivery;
    var t := Store(s.rows[id := NewRow(name, None, now)], s.logs[id := [Started(input, None)]]);
    SingletonScans(Started(input, None));
    forall x | x in t.rows
      ensures StartedOk(t, x) && TerminalOk(t, x) && SpawnsOk(t, x) && OriginOk(t, x)
    {
      if x != id {
        assert StartedOk(s, x) && TerminalOk(s, x) && SpawnsOk(s, x) && OriginOk(s, x);
      }
    }
    forall x, c | x in t.rows
      ensures DeliveriesOk(t, x, c)
    {
      if x != id {
        assert DeliveriesOk(s, x, c);
      } else if c in t.rows && c != id {
        assert OriginOk(s, c);
      }
    }
  }

  lemma SingletonScans(e: Event)
    requires e.Started?
    ensures First([e], IsStarted) == Some(e)
    ensures forall q: Query | !q.IsStarted? :: First([e], q) == None && Count([e], q) == 0
  {
    AppendScans([], e);
    assert [] + [e] == [e];
  }

  /** If the id of a spawn site exists, this very site has spawned it. */
  lemma TakenMeansSpawnedHere(s: Store, p: Id, i: nat)
    requires StoreInv(s) && ChildId(p, i) in s.rows
    ensures IsChildOf(s, ChildId(p, i), p) && s.Has(p)
    ensures Count(s.logs[p], AtStep(i, ChildStartedKind)) == 1
  {
    var id := ChildId(p, i);
    assert OriginOk(s, id);
    ChildIdIsNotRoot(p, i);
    var q := s.rows[id].parent.value;
    var j: nat :| id == ChildId(q, j) && Count(s.logs[q], AtStep(j, ChildStartedKind)) == 1;
    ChildIdInjective(p, i, q, j);
  }

  lemma UntakenMeansUnspawned(s: Store, p: Id, i: nat)
    requires StoreInv(s) && p in s.rows && ChildId(p, i) !in s.rows
    ensures Count(s.logs[p], AtStep(i, ChildStartedKind)) == 0
  {
    var q := AtStep(i, ChildStartedKind);
    ScanIsExact(s.logs[p], q);
    assert SpawnsOk(s, p);
  }

  /** What `create_child_workflow` leaves in the tables, and nothing else changed. */
  ghost predicate Spawned(s: Store, t: Store, p: Id, step: nat, name: string, input: Json) {
    var id := ChildId(p, step);
    && p in s.rows && id !in s.rows
    && t.rows.Keys == t.logs.Keys == s.rows.Keys + {id}
    && (forall x :: x in s.rows ==> t.rows[x] == s.rows[x])
    && (forall x :: x in s.rows && x in s.logs && x != p ==> t.logs[x] == s.logs[x])
    && t.rows[id].name == name && t.rows[id].parent == Some(p) && t.rows[id].status == RUNNING
    && t.logs[id] == [Started(input, Some(ParentInfo(p, id)))]
    && p in s.logs && t.logs[p] == s.logs[p] + [ChildStarted(step, id, name, input)]
  }

  lemma NewChild(s: Store, p: Id, step: nat, name: string, input: Json, now: Time)
    requires StoreInv(s) && p in s.rows && ChildId(p, step) !in s.rows
    ensures StoreInv(Commit(s, now, 0, CreateChild(p, step, ChildId(p, step), name, input)))
  {
    hide First, Count, Matches, FirstOutcome, FirstDelivery, OriginOk, SpawnsOk, DeliveriesOk, TerminalOk, StartedOk;
    ChildIdIsLonger(p, step);
    hide ChildId;
    var t := Commit(s, now, 0, CreateChild(p, step, ChildId(p, step), name, input));
    assert Spawned(s, t, p, step, name, input);
    assert t.rows.Keys == t.logs.Keys;
    UntakenMeansUnspawned(s, p, step);
    hide Commit, Spawned;
    forall x | x in t.rows
      ensures StartedOk(t, x) && TerminalOk(t, x) && OriginOk(t, x) && SpawnsOk(t, x)
    {
      NewChildStarted(s, t, p, step, name, input, x);
      NewChildOrigin(s, t, p, step, name, input, x);
      NewChildSpawns(s, t, p, step, name, input, x);
    }
    forall x, c | x in t.rows
      ensures DeliveriesOk(t, x, c)
    {
      NewChildDeliveries(s, t, p, step, name, input, x, c);
    }
  }

  lemma NewChildStarted(s: Store, t: Store, p: Id, step: nat, name: string, input: Json, x: Id)
    requires StoreInv(s) && Spawned(s, t, p, step, name, input) && x in t.rows
    ensures StartedOk(t, x) && TerminalOk(t, x)
  {
    hide First, Count, ChildId, Matches, OriginOk, SpawnsOk, DeliveriesOk;
    SpawnScans(s.logs[p], ChildStarted(step, ChildId(p, step), name, input));
    SingletonScans(t.logs[ChildId(p, step)][0]);
    if x in s.rows {
      assert StartedOk(s, x) && TerminalOk(s, x);
    }
  }

  lemma NewChildOrigin(s: Store, t: Store, p: Id, step: nat, name: string, input: Json, x: Id)
    requires StoreInv(s) && Spawned(s, t, p, step, name, input) && x in t.rows
    requires Count(s.logs[p], AtStep(step, ChildStartedKind)) == 0
    ensures OriginOk(t, x)
  {
    hide First, Count, ChildId, Matches, SpawnsOk, DeliveriesOk, StartedOk, TerminalOk;
    SpawnScans(s.logs[p], ChildStarted(step, ChildId(p, step), name, input));
    if x in s.rows {
      assert OriginOk(s, x);
      if s.rows[x].parent.Some? {
        var px := s.rows[x].parent.value;
        var i: nat :| x == ChildId(px, i) && Count(s.logs[px], AtStep(i, ChildStartedKind)) == 1;
        assert x == ChildId(px, i) && Count(t.logs[px], AtStep(i, ChildStartedKind)) == 1;
      }
    } else {
      assert x == ChildId(p, step) && Count(t.logs[p], AtStep(step, ChildStartedKind)) == 1;
    }
  }

  lemma NewChildDeliveries(s: Store, t: Store, p: Id, step: nat, name: string, input: Json, x: Id, c: Id)
    requires StoreInv(s) && Spawned(s, t, p, step, name, input) && x in t.rows
    ensures DeliveriesOk(t, x, c)
  {
    var id := ChildId(p, step);
    hide ChildId, Matches, SpawnsOk, StartedOk, TerminalOk, First, Count, FirstOutcome;
    SpawnDeliveries(s.logs[p], ChildStarted(step, id, name, input));
    StartDeliveries(t.logs[id][0]);
    if x in s.rows {
      assert DeliveriesOk(s, x, c);
      if c == id {
        NothingDelivered(s.logs[x], c);
      }
    } else if c in s.rows {
      assert OriginOk(s, c);
    }
  }

  lemma NothingDelivered(log: Log, c: Id)
    requires Count(log, ChildResult(c)) == 0
    ensures FirstDelivery(log, c) == None
  {
    ScanIsExact(log, ChildResult(c));
  }

  lemma SpawnDeliveries(log: Log, e: Event)
    requires e.ChildStarted?
    ensures Count(log + [e], Terminal) == Count(log, Terminal) && FirstOutcome(log + [e]) == FirstOutcome(log)
    ensures forall c :: Count(log + [e], ChildResult(c)) == Count(log, ChildResult(c))
    ensures forall c :: FirstDelivery(log + [e], c) == FirstDelivery(log, c)
  {
    AppendScans(log, e);
  }

  lemma StartDeliveries(e: Event)
    requires e.Started?
    ensures Count([e], Terminal) == 0 && FirstOutcome([e]) == None
    ensures forall c :: Count([e], ChildResult(c)) == 0
  {
    SingletonScans(e);
  }

  lemma NewChildSpawns(s: Store, t: Store, p: Id, step: nat, name: string, input: Json, x: Id)
    requires StoreInv(s) && Spawned(s, t, p, step, name, input) && x in t.rows
    requires Count(s.logs[p], AtStep(step, ChildStartedKind)) == 0
    ensures SpawnsOk(t, x)
  {
    var id := ChildId(p, step);
    hide First, Count, ChildId, Matches, OriginOk, DeliveriesOk, StartedOk, TerminalOk;
    SpawnScans(s.logs[p], ChildStarted(step, id, name, input));
    SingletonScans(t.logs[id][0]);
    if x != id {
      assert SpawnsOk(s, x);
      forall e | e in t.logs[x] && e.ChildStarted?
        ensures e.childId == ChildId(x, e.step)
        ensures t.Has(e.childId) && IsChildOf(t, e.childId, x) && t.rows[e.childId].name == e.name
        ensures t.logs[e.childId] != []
        ensures t.logs[e.childId][0] == Started(e.input, Some(ParentInfo(x, e.childId)))
      {
        if e !in s.logs[x] {
          assert e == ChildStarted(step, id, name, input);
        }
      }
    }
  }

  lemma CommitKeepsStoreInv(s: Store, now: Time, lockDuration: Time, tx: Tx)
    requires StoreInv(s) && Valid(s, tx) && Proper(s, tx)
    ensures StoreInv(Commit(s, now, lockDuration, tx))
  {
    hide First, Count, ChildId, Matches, FirstOutcome, FirstDelivery;
    match tx
    case NoTx =>
    case CreateWorkflow(id, name, input) => NewRoot(s, id, name, input, now);
    case CreateChild(parent, step, child, name, input) =>
      if child !in s.rows {
        NewChild(s, parent, step, name, input, now);
      }
    case ClaimWorkflow(id, worker) =>
      assert TerminalOk(s, id);
      UpdateRow(s, id, s.rows[id].(lockedBy := Some(worker), lockedUntil := Some(now + lockDuration)));
    case ExtendLock(id) =>
      assert TerminalOk(s, id);
      UpdateRow(s, id, s.rows[id].(lockedUntil := Some(now + lockDuration)));
    case WriteEvent(id, e) => AppendOwn(s, id, e);
    case Reschedule(id, at) =>
      assert TerminalOk(s, id);
      UpdateRow(s, id, s.rows[id].(runAt := at).Unlocked());
    case MarkWaiting(id, awaited) =>
      UpdateRow(s, id, s.rows[id].(status := WAITING).Unlocked());
    case WriteSignal(id, t, payload) =>
      AppendOwn(s, id, Signal(t, payload));
      UpdateRow(s.Append(id, Signal(t, payload)), id, s.rows[id].Woken(now));
    case Finish(id, outcome, parentInfo) =>
      var done := s.rows[id].(status := TerminalStatus(outcome)).Unlocked();
      if s.rows[id].parent.None? {
        AppendTerminal(s, id, outcome);
        UpdateRow(s.Append(id, TerminalEvent(outcome)), id, done);
      } else {
        var p := s.rows[id].parent.value;
        AppendDelivery(s, id, outcome, p);
        var t := s.Append(id, TerminalEvent(outcome)).Append(p, ChildSignal(id, outcome));
        UpdateRow(t, id, done);
        UpdateRow(t.Update(id, done), p, t.Update(id, done).rows[p].Woken(now));
        assert Commit(s, now, lockDuration, tx) ==
          t.Update(id, done).Update(p, t.Update(id, done).rows[p].Woken(now));
      }
  }

  // ----- Runs fit the store -----

  /** A run works on its own row, from a prefix of its log, at a program point its code can be at. */
  ghost predicate RunOk(code: Code, s: Store, r: Run) {
    && s.Has(r.wf) && r.name == s.rows[r.wf].name
    && PcFits(r.pc, CommandOf(code, r))
    && (if r.pc.Claimed? then r.hist == [] && r.obs == [] else r.hist != [] && r.hist <= s.logs[r.wf])
    && (r.pc.Reloading? ==> First(s.logs[r.wf], Settles(r.At(), CommandOf(code, r))).Some?)
  }

  ghost predicate FamilyInv(code: Code, s: State) {
    && StoreInv(s.store)
    && forall rid {:trigger s.runs[rid]} :: rid in s.runs ==> RunOk(code, s.store, s.runs[rid])
  }

  /** A loaded history resolves to the same STARTED event as the log. */
  lemma StartOfHistory(s: Store, r: Run)
    requires StoreInv(s) && s.Has(r.wf) && r.hist != [] && r.hist <= s.logs[r.wf]
    ensures First(r.hist, IsStarted) == Some(s.logs[r.wf][0]) == First(s.logs[r.wf], IsStarted)
  {
    assert StartedOk(s, r.wf);
    var first := r.hist[..1];
    assert first == [s.logs[r.wf][0]];
    SingletonScans(first[0]);
    FirstIsStable(first, r.hist, IsStarted);
  }

  /** Every database call a run can make is one the schema accepts. */
  lemma MovesAreProper(code: Code, s: State, r: Run, choice: Choice)
    requires FamilyInv(code, s) && RunOk(code, s.store, r)
    requires r.pc.BodyRunning? <==> !choice.Proceed?
    ensures Valid(s.store, MoveOf(code, s, r, choice).tx) && Proper(s.store, MoveOf(code, s, r, choice).tx)
    ensures r.pc.Deciding? ==> First(r.hist, IsStarted) == First(s.Log(r.wf), IsStarted)
  {
    hide First, Step, StoreInv;
    RootedMovesAreProper(code, s, r, choice);
  }

  /** A run on an existing row, with a prefix of its log, whatever code it executes. */
  ghost predicate Rooted(s: Store, r: Run) {
    && s.Has(r.wf) && r.name == s.rows[r.wf].name
    && (if r.pc.Claimed? then r.hist == [] && r.obs == [] else r.hist != [] && r.hist <= s.logs[r.wf])
  }

  lemma RootedMovesAreProper(code: Code, s: State, r: Run, choice: Choice)
    requires StoreInv(s.store) && Rooted(s.store, r) && CanStep(code, r, choice)
    ensures Valid(s.store, MoveOf(code, s, r, choice).tx) && Proper(s.store, MoveOf(code, s, r, choice).tx)
    ensures r.pc.Deciding? ==> First(r.hist, IsStarted) == First(s.Log(r.wf), IsStarted)
  {
    hide First, Count, ChildId, Matches, OriginOk, SpawnsOk, DeliveriesOk, TerminalOk, ToJsonSafe;
    hide SerializeArguments, Lookup;
    if !r.pc.Claimed? {
      StartOfHistory(s.store, r);
      assert StartedOk(s.store, r.wf);
      if s.store.rows[r.wf].parent.Some? {
        ParentIsAnother(s.store, r.wf);
      }
    }
  }

  /** A run stays on its workflow and its snapshot, and goes where its pending command lets it. */
  lemma NextFits(code: Code, s: State, r: Run, choice: Choice)
    requires CanStep(code, r, choice) && MoveOf(code, s, r, choice).next.Some?
    ensures var r' := MoveOf(code, s, r, choice).next.value;
      && r'.wf == r.wf && r'.name == r.name && PcFits(r'.pc, CommandOf(code, r')) && !r'.pc.Claimed?
      && r'.hist == (if r.pc.Claimed? then s.Log(r.wf) else r.hist)
      && (r'.pc.Reloading? ==>
            && r'.obs == r.obs && CommandOf(code, r') == CommandOf(code, r)
            && First(s.Log(r.wf), Settles(r.At(), CommandOf(code, r))).Some?)
  {
    hide Count, First, ChildId, ToJsonSafe, SerializeArguments, Lookup;
  }

  lemma NextRunOk(code: Code, s: State, r: Run, choice: Choice, t: Store)
    requires FamilyInv(code, s) && RunOk(code, s.store, r)
    requires r.pc.BodyRunning? <==> !choice.Proceed?
    requires Grows(s.store, t) && MoveOf(code, s, r, choice).next.Some?
    ensures RunOk(code, t, MoveOf(code, s, r, choice).next.value)
  {
    hide Count, First, OriginOk, SpawnsOk, DeliveriesOk, TerminalOk;
    assert StartedOk(s.store, r.wf);
    hide FamilyInv, Step;
    NextFits(code, s, r, choice);
    var r' := MoveOf(code, s, r, choice).next.value;
    if r'.pc.Reloading? {
      FirstIsStable(s.store.logs[r.wf], t.logs[r.wf], Settles(r.At(), CommandOf(code, r)));
    }
  }

  lemma OtherRunOk(code: Code, s: Store, t: Store, r: Run)
    requires RunOk(code, s, r) && Grows(s, t)
    ensures RunOk(code, t, r)
  {
    hide First;
    if r.pc.Reloading? {
      FirstIsStable(s.logs[r.wf], t.logs[r.wf], Settles(r.At(), CommandOf(code, r)));
    }
  }

  lemma ActionIsProper(code: Code, s: State, a: Action)
    requires FamilyInv(code, s) && Enabled(code, s, a)
    ensures Valid(s.store, TxOf(code, s, a)) && Proper(s.store, TxOf(code, s, a))
  {
    hide Step;
    if a.Progress? {
      MovesAreProper(code, s, s.runs[a.rid], a.choice);
    }
  }

  lemma ApplyKeepsFamily(code: Code, cfg: Config, s: State, a: Action)
    requires FamilyInv(code, s) && Enabled(code, s, a)
    ensures FamilyInv(code, Apply(code, cfg, s, a))
    ensures Grows(s.store, Apply(code, cfg, s, a).store)
  {
    var tx := TxOf(code, s, a);
    var t := Apply(code, cfg, s, a);
    ActionIsProper(code, s, a);
    CommitKeepsStoreInv(s.store, s.now, cfg.lockDuration, tx);
    CommitGrows(s.store, s.now, cfg.lockDuration, tx);
    hide StoreInv, Commit, Valid, Proper, Grows, RunOk, Step;
    forall rid | rid in t.runs
      ensures RunOk(code, t.store, t.runs[rid])
    {
      RunAfterActionOk(code, cfg, s, a, rid);
    }
  }

  lemma RunAfterActionOk(code: Code, cfg: Config, s: State, a: Action, rid: RunId)
    requires FamilyInv(code, s) && Enabled(code, s, a)
    requires rid in RunsAfter(code, cfg, s, a)
    requires Grows(s.store, Apply(code, cfg, s, a).store)
    ensures RunOk(code, Apply(code, cfg, s, a).store, RunsAfter(code, cfg, s, a)[rid])
  {
    hide StoreInv, Commit, Step, First;
    var t := Apply(code, cfg, s, a).store;
    if rid in s.runs {
      OtherRunOk(code, s.store, t, s.runs[rid]);
    }
    if a.Progress? && a.rid == rid {
      NextRunOk(code, s, s.runs[rid], a.choice, t);
    }
  }

  lemma InitFamily(code: Code, now: Time)
    ensures FamilyInv(code, Init(now))
  {
  }

  lemma {:induction false} FamilyHolds(code: Code, cfg: Config, sch: Schedule, s: State, acts: seq<Action>)
    requires FamilyInv(code, s) && Legal(code, cfg, sch, s, acts)
    ensures FamilyInv(code, Final(code, cfg, sch, s, acts))
    ensures Grows(s.store, Final(code, cfg, sch, s, acts).store)
    decreases |acts|
  {
    hide Apply, Enabled, Permits, FamilyInv;
    if acts != [] {
      ApplyKeepsFamily(code, cfg, s, acts[0]);
      FamilyHolds(code, cfg, sch, Apply(code, cfg, s, acts[0]), acts[1..]);
    }
  }

  lemma ReachableFamily(code: Code, cfg: Config, sch: Schedule, s: State)
    requires Reachable(code, cfg, sch, s)
    ensures FamilyInv(code, s)
  {
    hide FamilyInv, Leads, Legal, Final;
    var now, acts := ReachableBy(code, cfg, sch, s);
    InitFamily(code, now);
    FamilyHolds(code, cfg, sch, Init(now), acts);
  }

  // ----- Results for every behaviour -----

  /**
   * Exactly one child per spawn site, under any concurrency: a site's id is a row exactly if the
   * parent's log holds one CHILD_STARTED event for the step, which announces that row's name and
   * input, and every row with a parent comes from one site. So a refused insert always means that
   * this very spawn has already happened.
   */
  lemma OneChildPerSpawnSite(code: Code, cfg: Config, t: State)
    requires Reachable(code, cfg, AnySchedule, t)
    ensures var s := t.store;
      && (forall p, i: nat :: p in s.rows && p in s.logs ==>
            Count(s.logs[p], AtStep(i, ChildStartedKind)) == if ChildId(p, i) in s.rows then 1 else 0)
      && (forall p, e :: p in s.rows && p in s.logs && e in s.logs[p] && e.ChildStarted? ==>
            && e.childId == ChildId(p, e.step) && IsChildOf(s, e.childId, p) && s.rows[e.childId].name == e.name
            && e.childId in s.logs && Started(e.input, Some(ParentInfo(p, e.childId))) in s.logs[e.childId])
      && (forall c, p :: IsChildOf(s, c, p) ==> exists i: nat :: c == ChildId(p, i))
  {
    hide Leads, Legal, Final, Apply, Count, First, ChildId, Matches, DeliveriesOk, TerminalOk;
    ReachableFamily(code, cfg, AnySchedule, t);
    var s := t.store;
    forall p, i: nat | p in s.rows && p in s.logs
      ensures Count(s.logs[p], AtStep(i, ChildStartedKind)) == if ChildId(p, i) in s.rows then 1 else 0
    {
      if ChildId(p, i) in s.rows {
        TakenMeansSpawnedHere(s, p, i);
      } else {
        UntakenMeansUnspawned(s, p, i);
      }
    }
    forall p, e | p in s.rows && p in s.logs && e in s.logs[p] && e.ChildStarted?
      ensures e.childId == ChildId(p, e.step) && IsChildOf(s, e.childId, p) && s.rows[e.childId].name == e.name
      ensures e.childId in s.logs && Started(e.input, Some(ParentInfo(p, e.childId))) in s.logs[e.childId]
    {
      assert SpawnsOk(s, p);
      assert s.logs[e.childId][0] in s.logs[e.childId];
    }
    forall c, p | IsChildOf(s, c, p)
      ensures exists i: nat :: c == ChildId(p, i)
    {
      assert OriginOk(s, c);
    }
  }

  /**
   * Completion is conserved: a parent's log holds one completion signal for each terminal event of
   * the child, re-runs of a finished child included, and none for anyone else's child; the first
   * signal, which is the one every wait reads, carries the child's first outcome.
   */
  lemma CompletionIsConserved(code: Code, cfg: Config, t: State)
    requires Reachable(code, cfg, AnySchedule, t)
    ensures var s := t.store;
      forall p, c :: p in s.rows && p in s.logs ==>
        if IsChildOf(s, c, p) && c in s.logs then
          && Count(s.logs[p], ChildResult(c)) == Count(s.logs[c], Terminal)
          && FirstDelivery(s.logs[p], c) == FirstOutcome(s.logs[c])
        else Count(s.logs[p], ChildResult(c)) == 0
  {
    hide Leads, Legal, Final, Apply, Count, First, FirstDelivery, FirstOutcome, ChildId, Matches;
    hide OriginOk, SpawnsOk, TerminalOk;
    ReachableFamily(code, cfg, AnySchedule, t);
    var s := t.store;
    forall p, c | p in s.rows && p in s.logs
      ensures if IsChildOf(s, c, p) && c in s.logs then
          && Count(s.logs[p], ChildResult(c)) == Count(s.logs[c], Terminal)
          && FirstDelivery(s.logs[p], c) == FirstOutcome(s.logs[c])
        else Count(s.logs[p], ChildResult(c)) == 0
    {
      assert DeliveriesOk(s, p, c);
    }
  }
}
