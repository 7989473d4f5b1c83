/**
 * Nothing gets stuck: every run that ends leaves its row released and due again, a waiting workflow
 * really waits for something that has not happened, and waits-for chains end.
 */
module Progress {
  import opened Wrappers
  import opened Ids
  import opened Serialization
  import opened Events
  import opened Transactions
  import opened Workflows
  import opened Machine
  import opened Cluster
  import opened Family
  import opened Replay
  import opened Transparency

  // ----- Every non-crashing run ends released -----

  /** How a suspending, failing or completing exit leaves the row. */
  predicate Released(row: Row, tx: Tx) {
    && row.lockedBy.None? && row.lockedUntil.None?
    && (tx.MarkWaiting? || tx.Reschedule? || tx.Finish?)
    && (tx.MarkWaiting? ==> row.status == WAITING)
    && (tx.Reschedule? ==> row.runAt == tx.runAt)
    && (tx.Finish? ==> row.status == TerminalStatus(tx.outcome))
  }

  /**
   * On every exit the lock is gone and the row is waiting, rescheduled or terminal. In particular a
   * refused mark always finds the awaited event in fresh history, so no run ends with its lock held.
   */
  lemma RunsEndReleased(code: Code, cfg: Config, sch: Schedule, s: State, a: Action)
    requires Reachable(code, cfg, sch, s)
    requires Enabled(code, s, a) && a.Progress? && a.rid !in Apply(code, cfg, s, a).runs
    ensures var id := s.runs[a.rid].wf; var t := Apply(code, cfg, s, a);
      id in t.store.rows && Released(t.store.rows[id], TxOf(code, s, a))
  {
    hide Leads, Step, Commit, FamilyInv;
    ReachableFamily(code, cfg, sch, s);
    hide Reachable;
    EndingMoveReleases(code, cfg, s, a);
  }

  lemma EndingMoveReleases(code: Code, cfg: Config, s: State, a: Action)
    requires FamilyInv(code, s) && Enabled(code, s, a) && a.Progress? && a.rid !in Apply(code, cfg, s, a).runs
    ensures var id := s.runs[a.rid].wf; var t := Apply(code, cfg, s, a);
      id in t.store.rows && Released(t.store.rows[id], TxOf(code, s, a))
  {
    var r := s.runs[a.rid];
    assert RunOk(code, s.store, r);
    MovesAreProper(code, s, r, a.choice);
    if s.store.rows[r.wf].parent.Some? {
      ParentIsAnother(s.store, r.wf);
    }
    EndingMoves(code, s, r, a.choice);
    hide Step, First, StoreInv, AuditAfter, SeenAfter, ChildId;
    CommitReleases(s.store, s.now, cfg.lockDuration, TxOf(code, s, a), r.wf);
  }

  lemma EndingMoves(code: Code, s: State, r: Run, choice: Choice)
    requires FamilyInv(code, s) && RunOk(code, s.store, r) && CanStep(code, r, choice)
    requires MoveOf(code, s, r, choice).next.None?
    ensures var tx := MoveOf(code, s, r, choice).tx;
      && (tx.MarkWaiting? || tx.Reschedule? || tx.Finish?) && tx.id == r.wf
      && (tx.MarkWaiting? ==> First(s.Log(r.wf), tx.awaited).None?)
  {
    hide First, Count, FromJsonSafe, ToJsonSafe, SerializeArguments, ObsOf, StoreInv, ChildId;
  }

  lemma CommitReleases(s: Store, now: Time, lockDuration: Time, tx: Tx, id: Id)
    requires Valid(s, tx) && s.Has(id) && (tx.MarkWaiting? || tx.Reschedule? || tx.Finish?) && tx.id == id
    requires tx.MarkWaiting? ==> First(s.Log(id), tx.awaited).None?
    requires tx.Finish? && tx.parentInfo.Some? ==> tx.parentInfo.value.workflowId != id
    ensures id in Commit(s, now, lockDuration, tx).rows && Released(Commit(s, now, lockDuration, tx).rows[id], tx)
  {
    hide First;
  }

  // ----- What rows are marked for -----

  /** Workflow code joins only children it has spawned. */
  ghost predicate JoinsOwnChildren(w: Workflow) {
    forall obs, c :: w(obs) == WaitChild(c) ==> Spawned(c) in obs
  }

  ghost predicate JoinsOnlyOwn(code: Code) {
    forall name, input :: name in code.registry ==> JoinsOwnChildren(code.registry[name](input))
  }

  lemma RunJoinsOwn(code: Code, r: Run)
    requires JoinsOnlyOwn(code)
    ensures JoinsOwnChildren(FlowOfRun(code, r))
  {
    hide First;
  }

  predicate IsAwaitable(q: Query) {
    q.Received? || q.ChildResult?
  }

  /** The marker that a wait for this event leaves. */
  function MarkerFor(q: Query): Event
    requires IsAwaitable(q)
  {
    if q.Received? then SignalWaiting(q.signalType) else ChildWaiting(q.childId)
  }

  /**
   * A WAITING row was marked for something since it was last woken or ended; and nothing it was marked
   * for since is in its log, though a marker for it is, a joined child being one of its own.
   */
  ghost predicate AwaitedOk(code: Code, s: State, id: Id)
    requires id in s.store.rows
  {
    && (s.store.rows[id].status == WAITING ==> s.Awaited(id) != {})
    && forall q :: q in s.Awaited(id) ==>
      && IsAwaitable(q) && First(s.Log(id), q).None? && MarkerFor(q) in s.Log(id)
      && (q.ChildResult? && JoinsOnlyOwn(code) ==> IsChildOf(s.store, q.childId, id))
  }

  /** A run about to mark its row has left its marker, and the children it has been given are its own. */
  ghost predicate RunAwaits(code: Code, s: State, r: Run) {
    && (r.pc.Marking? || r.pc.Reloading? ==> Waits(CommandOf(code, r)) && MarkerEvent(CommandOf(code, r)) in s.Log(r.wf))
    && forall c :: Spawned(c) in r.obs ==> IsChildOf(s.store, c, r.wf)
  }

  predicate LockOk(row: Row) {
    row.lockedBy.Some? ==> row.lockedUntil.Some?
  }

  ghost predicate AwaitInv(code: Code, s: State) {
    && FamilyInv(code, s)
    && s.audit.awaited.Keys <= s.store.rows.Keys
    && (forall id {:trigger AwaitedOk(code, s, id)} :: id in s.store.rows ==> AwaitedOk(code, s, id))
    && (forall id {:trigger s.store.rows[id]} :: id in s.store.rows ==> LockOk(s.store.rows[id]))
    && (forall rid {:trigger s.runs[rid]} :: rid in s.runs ==> RunAwaits(code, s, s.runs[rid]))
  }

  /** What a transaction does to a row that exists, and to what it is marked for. */
  lemma CommitAwaits(code: Code, s: State, t: State, now: Time, lockDuration: Time, tx: Tx, id: Id)
    requires Valid(s.store, tx) && s.store.Has(id) && AwaitedOk(code, s, id) && LockOk(s.store.rows[id])
    requires tx.WriteEvent? ==> !tx.event.Signal? && !tx.event.ChildSignal?
    requires tx.Finish? && tx.id == id && tx.parentInfo.Some? ==> tx.parentInfo.value.workflowId != id
    requires tx.MarkWaiting? && tx.id == id ==>
      && IsAwaitable(tx.awaited) && MarkerFor(tx.awaited) in s.Log(id)
      && (tx.awaited.ChildResult? && JoinsOnlyOwn(code) ==> IsChildOf(s.store, tx.awaited.childId, id))
    requires t.store == Commit(s.store, now, lockDuration, tx) && t.audit.awaited == AwaitedAfter(s, tx)
    ensures id in t.store.rows && AwaitedOk(code, t, id) && LockOk(t.store.rows[id])
  {
    hide JoinsOnlyOwn;
    if tx.Finish? {
      FinishAwaits(code, s, t, now, lockDuration, tx, id);
      return;
    }
    if tx.WriteEvent? && tx.id == id {
      AppendScans(s.Log(id), tx.event);
    } else if tx.CreateChild? && tx.parent == id {
      AppendScans(s.Log(id), ChildStarted(tx.step, tx.child, tx.name, tx.input));
    }
    hide First, Count, MarkerFor;
  }

  lemma FinishAwaits(code: Code, s: State, t: State, now: Time, lockDuration: Time, tx: Tx, id: Id)
    requires Valid(s.store, tx) && s.store.Has(id) && AwaitedOk(code, s, id) && LockOk(s.store.rows[id]) && tx.Finish?
    requires tx.id == id && tx.parentInfo.Some? ==> tx.parentInfo.value.workflowId != id
    requires t.store == Commit(s.store, now, lockDuration, tx) && t.audit.awaited == AwaitedAfter(s, tx)
    ensures id in t.store.rows && AwaitedOk(code, t, id) && LockOk(t.store.rows[id])
  {
    hide JoinsOnlyOwn, First, Count, MarkerFor;
  }

  /** A new row, and what else becomes known to the map of marks. */
  lemma CommitNewAwaits(s: State, now: Time, lockDuration: Time, tx: Tx)
    requires Valid(s.store, tx) && s.audit.awaited.Keys <= s.store.rows.Keys
    ensures var t := Commit(s.store, now, lockDuration, tx); var awaited := AwaitedAfter(s, tx);
      && awaited.Keys <= t.rows.Keys
      && forall id :: id in t.rows && id !in s.store.rows ==>
        id !in awaited && t.rows[id].status == RUNNING && LockOk(t.rows[id])
  {
    hide First;
  }

  /** What a run marks its row for is what it left its marker for. */
  lemma MarksAwaited(code: Code, s: State, r: Run, choice: Choice)
    requires CanStep(code, r, choice) && RunAwaits(code, s, r)
    ensures var tx := MoveOf(code, s, r, choice).tx;
      && (tx.WriteEvent? ==> !tx.event.Signal? && !tx.event.ChildSignal?)
      && (tx.MarkWaiting? ==>
            && IsAwaitable(tx.awaited) && MarkerFor(tx.awaited) in s.Log(r.wf)
            && (tx.awaited.ChildResult? && JoinsOnlyOwn(code) ==> IsChildOf(s.store, tx.awaited.childId, r.wf)))
  {
    hide First, Count, ChildId, SerializeArguments, ToJsonSafe, Lookup, FlowOf;
    if JoinsOnlyOwn(code) {
      RunJoinsOwn(code, r);
    }
    hide JoinsOnlyOwn;
  }

  /** Where a run's next child comes from. */
  lemma NextSpawned(code: Code, s: State, r: Run, choice: Choice)
    requires CanStep(code, r, choice) && MoveOf(code, s, r, choice).next.Some?
    ensures var m := MoveOf(code, s, r, choice);
      forall c :: Spawned(c) in m.next.value.obs ==>
        || Spawned(c) in r.obs
        || (exists e :: e in r.hist && e.ChildStarted? && e.childId == c)
        || (m.tx.CreateChild? && m.tx.child == c)
  {
    hide Count, ChildId, SerializeArguments, ToJsonSafe, FromJsonSafe, FlowOf, SameJson;
    if r.pc.Deciding? && CommandOf(code, r).Spawn? {
      ScanIsExact(r.hist, AtStep(r.At(), ChildStartedKind));
    }
    hide First;
  }

  /** Where a run's next place at a wait comes from. */
  lemma NextAwaits(code: Code, s: State, r: Run, choice: Choice)
    requires CanStep(code, r, choice) && MoveOf(code, s, r, choice).next.Some?
    ensures var m := MoveOf(code, s, r, choice); var r' := m.next.value;
      r'.pc.Marking? || r'.pc.Reloading? ==>
        && CommandOf(code, r') == CommandOf(code, r) && Waits(CommandOf(code, r))
        && (r.pc.Marking? || MarkerEvent(CommandOf(code, r)) in r.hist
            || m.tx == WriteEvent(r.wf, MarkerEvent(CommandOf(code, r))))
  {
    hide Count, ChildId, SerializeArguments, ToJsonSafe, FromJsonSafe, FlowOf, SameJson, Lookup;
    if r.pc.Deciding? && Waits(CommandOf(code, r)) {
      ScanIsExact(r.hist, Marker(CommandOf(code, r)));
    }
    hide First;
  }

  lemma RunAwaitsLater(code: Code, s: State, t: State, r: Run, r': Run)
    requires RunAwaits(code, s, r) && Grows(s.store, t.store) && r' == r.(due := r'.due)
    ensures RunAwaits(code, t, r')
  {
    hide FlowOf, First;
  }

  lemma MoverAwaits(code: Code, cfg: Config, s: State, a: Action)
    requires AwaitInv(code, s) && Enabled(code, s, a) && a.Progress? && a.rid in Apply(code, cfg, s, a).runs
    ensures RunAwaits(code, Apply(code, cfg, s, a), Apply(code, cfg, s, a).runs[a.rid])
  {
    hide Step, Commit, First, AuditAfter, SeenAfter, StoreInv, FlowOf, AwaitedOk, OwnLog;
    var t, r := Apply(code, cfg, s, a), s.runs[a.rid];
    assert RunOk(code, s.store, r) && RunAwaits(code, s, r) && FamilyInv(code, s);
    hide AwaitInv;
    ApplyKeepsFamily(code, cfg, s, a);
    MoveShape(code, s, r, a.choice);
    NextSpawned(code, s, r, a.choice);
    NextAwaits(code, s, r, a.choice);
    OwnLogIsCommitted(code, s, a, cfg.lockDuration);
    OwnLogHas(s.store, s.Log(r.wf), TxOf(code, s, a));
    hide Enabled, ChildId;
    forall c | Spawned(c) in t.runs[a.rid].obs
      ensures IsChildOf(t.store, c, r.wf)
    {
      SpawnIsOwn(code, s, t, r, c, TxOf(code, s, a), s.now, cfg.lockDuration);
    }
  }

  lemma OwnLogHas(s: Store, log: Log, tx: Tx)
    ensures log <= OwnLog(s, log, tx)
    ensures tx.WriteEvent? ==> tx.event in OwnLog(s, log, tx)
  {
  }

  lemma SpawnIsOwn(code: Code, s: State, t: State, r: Run, c: Id, tx: Tx, now: Time, lockDuration: Time)
    requires FamilyInv(code, s) && FamilyInv(code, t) && s.store.Has(r.wf) && r.hist <= s.Log(r.wf)
    requires Grows(s.store, t.store) && Valid(s.store, tx) && t.store == Commit(s.store, now, lockDuration, tx)
    requires tx.CreateChild? ==> tx.parent == r.wf && tx.child == ChildId(r.wf, r.At())
    requires || IsChildOf(s.store, c, r.wf)
             || (exists e :: e in r.hist && e.ChildStarted? && e.childId == c)
             || (tx.CreateChild? && tx.child == c)
    ensures IsChildOf(t.store, c, r.wf)
  {
    hide First, Count, ChildId;
    assert SpawnsOk(s.store, r.wf);
    if tx.CreateChild? && tx.child == c {
      TakenMeansSpawnedHere(t.store, r.wf, r.At());
    }
  }

  lemma RowAwaits(code: Code, cfg: Config, s: State, a: Action, id: Id)
    requires AwaitInv(code, s) && Enabled(code, s, a) && id in s.store.rows
    ensures id in Apply(code, cfg, s, a).store.rows
    ensures AwaitedOk(code, Apply(code, cfg, s, a), id) && LockOk(Apply(code, cfg, s, a).store.rows[id])
  {
    hide Step, Commit, First, SeenAfter, StoreInv, FlowOf, RunsAfter, ChildId, AwaitedAfter, JoinsOnlyOwn;
    assert AwaitedOk(code, s, id) && LockOk(s.store.rows[id]) && FamilyInv(code, s);
    if a.Progress? {
      assert RunAwaits(code, s, s.runs[a.rid]) && RunOk(code, s.store, s.runs[a.rid]);
      MoveShape(code, s, s.runs[a.rid], a.choice);
      MarksAwaited(code, s, s.runs[a.rid], a.choice);
    }
    hide AwaitInv, AwaitedOk, RunAwaits;
    RowsHaveLogs(code, s);
    ActionIsProper(code, s, a);
    FinishedByAnother(code, s, TxOf(code, s, a));
    AuditOfAwaited(code, s, a);
    hide FamilyInv, AuditAfter, Proper;
    CommitAwaits(code, s, Apply(code, cfg, s, a), s.now, cfg.lockDuration, TxOf(code, s, a), id);
  }

  lemma FinishedByAnother(code: Code, s: State, tx: Tx)
    requires FamilyInv(code, s) && Proper(s.store, tx)
    ensures tx.Finish? && tx.parentInfo.Some? ==> tx.parentInfo.value.workflowId != tx.id
  {
    hide First, Count;
    if tx.Finish? && tx.parentInfo.Some? {
      ParentIsAnother(s.store, tx.id);
    }
  }

  lemma AuditOfAwaited(code: Code, s: State, a: Action)
    requires Enabled(code, s, a)
    ensures AuditAfter(code, s, a).awaited == AwaitedAfter(s, TxOf(code, s, a))
  {
    hide First, Step, OutOfRetries, Reopens;
  }

  lemma ApplyKeepsAwaits(code: Code, cfg: Config, s: State, a: Action)
    requires AwaitInv(code, s) && Enabled(code, s, a)
    ensures AwaitInv(code, Apply(code, cfg, s, a))
  {
    hide Step, Commit, First, SeenAfter, StoreInv, FlowOf, AwaitedAfter, AuditAfter, AwaitedOk, LockOk, RunAwaits, RunOk;
    var t := Apply(code, cfg, s, a);
    assert FamilyInv(code, s) && s.audit.awaited.Keys <= s.store.rows.Keys;
    ApplyKeepsFamily(code, cfg, s, a);
    ActionIsProper(code, s, a);
    AuditOfAwaited(code, s, a);
    CommitNewAwaits(s, s.now, cfg.lockDuration, TxOf(code, s, a));
    hide FamilyInv, Proper, Valid;
    forall id | id in t.store.rows
      ensures AwaitedOk(code, t, id) && LockOk(t.store.rows[id])
    {
      if id in s.store.rows {
        RowAwaits(code, cfg, s, a, id);
      } else {
        UnmarkedIsOk(code, t, id);
      }
    }
    forall rid | rid in t.runs
      ensures RunAwaits(code, t, t.runs[rid])
    {
      if a.Progress? && a.rid == rid {
        MoverAwaits(code, cfg, s, a);
      } else if rid in s.runs {
        assert RunAwaits(code, s, s.runs[rid]);
        RunAwaitsLater(code, s, t, s.runs[rid], t.runs[rid]);
      } else {
        ClaimedAwaits(code, t, t.runs[rid]);
      }
    }
  }

  lemma UnmarkedIsOk(code: Code, s: State, id: Id)
    requires id in s.store.rows && s.Awaited(id) == {} && s.store.rows[id].status == RUNNING
    ensures AwaitedOk(code, s, id)
  {
    hide First;
  }

  lemma ClaimedAwaits(code: Code, s: State, r: Run)
    requires r.pc.Claimed? && r.obs == []
    ensures RunAwaits(code, s, r)
  {
  }

  lemma {:induction false} AwaitsHold(code: Code, cfg: Config, s: State, acts: seq<Action>)
    requires AwaitInv(code, s) && Legal(code, cfg, AnySchedule, s, acts)
    ensures AwaitInv(code, Final(code, cfg, AnySchedule, s, acts))
    decreases |acts|
  {
    hide Apply, Enabled, AwaitInv;
    if acts != [] {
      ApplyKeepsAwaits(code, cfg, s, acts[0]);
      AwaitsHold(code, cfg, Apply(code, cfg, s, acts[0]), acts[1..]);
    }
  }

  lemma ReachableAwaits(code: Code, cfg: Config, sch: Schedule, s: State)
    requires Reachable(code, cfg, sch, s)
    ensures AwaitInv(code, s)
  {
    hide Leads, Final, Legal, Reachable;
    ReachableAnyway(code, cfg, sch, s);
    var now, acts := ReachableBy(code, cfg, AnySchedule, s);
    assert AwaitInv(code, Init(now)) by {
      InitFamily(code, now);
    }
    hide AwaitInv;
    AwaitsHold(code, cfg, Init(now), acts);
  }

  // ----- Nothing gets stuck -----

  /** `p` is suspended, and was marked as waiting for its child `c`. */
  ghost predicate WaitsOn(s: State, p: Id, c: Id) {
    p in s.store.rows && s.store.rows[p].status == WAITING && ChildResult(c) in s.Awaited(p)
  }

  ghost predicate JoinsNobody(s: State, id: Id) {
    forall c :: !WaitsOn(s, id, c)
  }

  /** A joined child has not ended, so it will still deliver. */
  lemma AwaitedChildIsAlive(code: Code, s: State, p: Id, c: Id)
    requires AwaitInv(code, s) && JoinsOnlyOwn(code) && WaitsOn(s, p, c)
    ensures IsChildOf(s.store, c, p) && |p| < |c|
    ensures !s.store.rows[c].IsTerminal() && Count(s.Log(p), ChildResult(c)) == 0
  {
    hide First, Count, JoinsOnlyOwn;
    assert AwaitedOk(code, s, p) && FamilyInv(code, s) && s.store.Has(p);
    ScanIsExact(s.Log(p), ChildResult(c));
    ParentIsAnother(s.store, c);
    assert DeliveriesOk(s.store, p, c) && TerminalOk(s.store, c);
  }

  /** How a workflow that is not finished will go on. */
  datatype Prospect = Ready | Held | Scheduled | AwaitsSignal(signalType: string) | AwaitsChild(childId: Id)

  /** A waiting row may have been marked for several things; it goes on when any of them comes. */
  ghost predicate GoesOn(s: State, id: Id, how: Prospect)
    requires id in s.store.rows
  {
    var row := s.store.rows[id];
    match how
    case Ready => row.Claimable(s.now)
    case Held => row.status == RUNNING && row.lockedBy.Some? && row.lockedUntil.Some? && s.now <= row.lockedUntil.value
    case Scheduled => row.status == RUNNING && s.now < row.runAt
    case AwaitsSignal(t) => row.status == WAITING && Received(t) in s.Awaited(id) && NothingCame(s, id)
    case AwaitsChild(c) =>
      && WaitsOn(s, id, c) && NothingCame(s, id)
      && IsChildOf(s.store, c, id) && !s.store.rows[c].IsTerminal()
  }

  /** Whatever the row was marked for since it was last woken is still to come. */
  ghost predicate NothingCame(s: State, id: Id) {
    s.Awaited(id) != {} && forall q :: q in s.Awaited(id) ==> IsAwaitable(q) && Count(s.Log(id), q) == 0
  }

  lemma NothingCameYet(code: Code, s: State, id: Id)
    requires id in s.store.rows && AwaitedOk(code, s, id) && s.store.rows[id].status == WAITING
    ensures NothingCame(s, id)
  {
    hide First, Count, JoinsOnlyOwn;
    forall q | q in s.Awaited(id)
      ensures Count(s.Log(id), q) == 0
    {
      ScanIsExact(s.Log(id), q);
    }
  }

  /** A join, if there is one, comes first: unless the prospect is one, the workflow waits for no child. */
  lemma ProspectOf(code: Code, s: State, id: Id) returns (how: Prospect)
    requires AwaitInv(code, s) && JoinsOnlyOwn(code)
    requires id in s.store.rows && !s.store.rows[id].IsTerminal()
    ensures GoesOn(s, id, how) && (!how.AwaitsChild? ==> JoinsNobody(s, id))
  {
    hide First, Count, JoinsOnlyOwn, FamilyInv, RunAwaits;
    var row := s.store.rows[id];
    assert AwaitedOk(code, s, id) && LockOk(row);
    if row.status == WAITING {
      NothingCameYet(code, s, id);
      if c :| WaitsOn(s, id, c) {
        AwaitedChildIsAlive(code, s, id, c);
        how := AwaitsChild(c);
      } else {
        var q :| q in s.Awaited(id);
        assert q.ChildResult? ==> WaitsOn(s, id, q.childId);
        how := AwaitsSignal(q.signalType);
      }
    } else if s.now < row.runAt {
      how := Prospect.Scheduled;
    } else if row.lockedBy.None? || row.lockedUntil.value < s.now {
      how := Ready;
    } else {
      how := Held;
    }
  }

  /** From one workflow to the next along waits on children. */
  ghost predicate WaitsChain(s: State, chain: seq<Id>) {
    chain != [] && forall i :: 0 <= i < |chain| - 1 ==> WaitsOn(s, chain[i], chain[i + 1])
  }

  ghost function Deeper(s: State, id: Id): set<Id> {
    set x | x in s.store.rows && |id| < |x|
  }

  /** A joined child is one of fewer workflows that lie deeper. */
  lemma JoinGoesDeeper(code: Code, s: State, p: Id, c: Id)
    requires AwaitInv(code, s) && JoinsOnlyOwn(code) && WaitsOn(s, p, c)
    ensures c in s.store.rows && |Deeper(s, c)| < |Deeper(s, p)|
  {
    hide AwaitInv, JoinsOnlyOwn;
    AwaitedChildIsAlive(code, s, p, c);
    assert c in Deeper(s, p) && c !in Deeper(s, c) && Deeper(s, c) <= Deeper(s, p);
    SmallerSet(Deeper(s, c), Deeper(s, p), c);
  }

  /** The chain leads to a workflow that is not finished, goes on, and waits for no child. */
  ghost predicate LeadsOn(s: State, chain: seq<Id>, how: Prospect) {
    && WaitsChain(s, chain)
    && var last := chain[|chain| - 1];
      && last in s.store.rows && !s.store.rows[last].IsTerminal()
      && GoesOn(s, last, how) && JoinsNobody(s, last)
  }

  /** From every unfinished workflow joins lead down to one that waits for no child and goes on otherwise. */
  lemma {:induction false} ChainEnds(code: Code, s: State, id: Id) returns (chain: seq<Id>, how: Prospect)
    requires AwaitInv(code, s) && JoinsOnlyOwn(code)
    requires id in s.store.rows && !s.store.rows[id].IsTerminal()
    ensures LeadsOn(s, chain, how) && chain[0] == id
    decreases |Deeper(s, id)|
  {
    hide AwaitInv, JoinsOnlyOwn;
    how := ProspectOf(code, s, id);
    if how.AwaitsChild? {
      var c := how.childId;
      JoinGoesDeeper(code, s, id, c);
      hide WaitsOn;
      var rest;
      rest, how := ChainEnds(code, s, c);
      chain := [id] + rest;
    } else {
      chain := [id];
    }
  }

  /** No chain of joins is longer than there are workflows: waiting in a circle is impossible. */
  lemma {:induction false} ChainIsBounded(code: Code, s: State, chain: seq<Id>)
    requires AwaitInv(code, s) && JoinsOnlyOwn(code) && WaitsChain(s, chain) && chain[0] in s.store.rows
    ensures |chain| <= |Deeper(s, chain[0])| + 1 && |Deeper(s, chain[0])| < |s.store.rows|
    decreases |chain|
  {
    hide AwaitInv, JoinsOnlyOwn, WaitsOn;
    var id := chain[0];
    assert id in s.store.rows.Keys && id !in Deeper(s, id) && Deeper(s, id) <= s.store.rows.Keys;
    SmallerSet(Deeper(s, id), s.store.rows.Keys, id);
    if |chain| > 1 {
      var rest := chain[1..];
      assert WaitsOn(s, chain[0], chain[1]);
      forall i | 0 <= i < |rest| - 1
        ensures WaitsOn(s, rest[i], rest[i + 1])
      {
        assert WaitsOn(s, chain[i + 1], chain[i + 2]);
      }
      JoinGoesDeeper(code, s, id, chain[1]);
      ChainIsBounded(code, s, rest);
    }
  }

  lemma SmallerSet(a: set<Id>, b: set<Id>, x: Id)
    requires a <= b && x in b && x !in a
    ensures |a| < |b|
  {
    SubsetSize(a, b - {x});
  }

  lemma {:induction false} SubsetSize(a: set<Id>, b: set<Id>)
    requires a <= b
    ensures |a| <= |b|
    decreases a
  {
    if a != {} {
      var x :| x in a;
      SubsetSize(a - {x}, b - {x});
    }
  }

  /** A workflow WAITING on a child is never stuck: the child is not finished, and nothing was delivered. */
  lemma JoinsAreAlive(code: Code, cfg: Config, sch: Schedule, s: State, p: Id, c: Id)
    requires JoinsOnlyOwn(code) && Reachable(code, cfg, sch, s) && WaitsOn(s, p, c)
    ensures IsChildOf(s.store, c, p) && !s.store.rows[c].IsTerminal() && Count(s.Log(p), ChildResult(c)) == 0
  {
    hide Reachable, AwaitInv, JoinsOnlyOwn, WaitsOn;
    ReachableAwaits(code, cfg, sch, s);
    AwaitedChildIsAlive(code, s, p, c);
  }

  /**
   * Nothing gets stuck, under any schedule, overlapping runs included. In every reachable state each
   * workflow that is not finished is claimable, held by an unexpired lock, due later, or WAITING with
   * nothing in its log of all it was marked for since it was last woken, a joined child being itself
   * unfinished; joins lead from it down to a workflow that goes on and waits for no child; and no chain
   * of joins is longer than there are workflows.
   */
  lemma NothingGetsStuck(code: Code, cfg: Config, sch: Schedule, s: State, id: Id)
    requires JoinsOnlyOwn(code) && Reachable(code, cfg, sch, s)
    requires id in s.store.rows && !s.store.rows[id].IsTerminal()
    ensures exists how: Prospect :: GoesOn(s, id, how)
    ensures exists chain: seq<Id>, how: Prospect :: LeadsOn(s, chain, how) && chain[0] == id
    ensures forall chain: seq<Id> :: WaitsChain(s, chain) && chain[0] == id ==> |chain| <= |s.store.rows|
  {
    hide Reachable, AwaitInv, JoinsOnlyOwn, GoesOn, WaitsOn, JoinsNobody;
    ReachableAwaits(code, cfg, sch, s);
    var h := ProspectOf(code, s, id);
    var down, k := ChainEnds(code, s, id);
    forall chain: seq<Id> | WaitsChain(s, chain) && chain[0] == id
      ensures |chain| <= |s.store.rows|
    {
      ChainIsBounded(code, s, chain);
    }
  }

  // ----- While runs do not overlap -----

  /** A WAITING row has no run, and was marked for the wait its code stands at, and nothing else. */
  ghost predicate WaitingOk(code: Code, s: State, id: Id)
    requires id in s.store.rows
  {
    if s.store.rows[id].status == WAITING then
      && Idle(s, id)
      && Waits(FlowAt(code, s, id)(s.Seen(id)))
      && First(s.Log(id), Settles(|s.Seen(id)|, FlowAt(code, s, id)(s.Seen(id)))).None?
      && s.Awaited(id) == {Settles(|s.Seen(id)|, FlowAt(code, s, id)(s.Seen(id)))}
    else s.Awaited(id) == {}
  }

  ghost predicate ProgressInv(code: Code, s: State) {
    && ReplayInv(code, s) && AwaitInv(code, s)
    && forall id {:trigger WaitingOk(code, s, id)} :: id in s.store.rows ==> WaitingOk(code, s, id)
  }

  /** A row that is WAITING and stays so is left alone by other parties' transactions; a wake clears its marks. */
  lemma CommitToWaiting(s: State, t: State, now: Time, lockDuration: Time, tx: Tx, id: Id)
    requires Valid(s.store, tx) && s.store.Has(id)
    requires tx.MarkWaiting? || tx.WriteEvent? || tx.Reschedule? || tx.Finish? ==> tx.id != id
    requires tx.CreateChild? ==> tx.parent != id
    requires t.store == Commit(s.store, now, lockDuration, tx) && t.audit.awaited == AwaitedAfter(s, tx)
    ensures id in t.store.rows
    ensures if t.store.rows[id].status == WAITING then
        s.store.rows[id].status == WAITING && t.Log(id) == s.Log(id) && t.Awaited(id) == s.Awaited(id)
      else t.Awaited(id) == {} || (s.store.rows[id].status != WAITING && t.Awaited(id) == s.Awaited(id))
  {
    hide First;
  }

  lemma BystanderWaiting(code: Code, cfg: Config, s: State, a: Action, id: Id)
    requires ProgressInv(code, s) && Enabled(code, s, a) && id in s.store.rows && !Moves(s, a, id)
    ensures id in Apply(code, cfg, s, a).store.rows && WaitingOk(code, Apply(code, cfg, s, a), id)
  {
    var t := Apply(code, cfg, s, a);
    BystanderAfter(code, cfg, s, a, id);
    assert WaitingOk(code, s, id);
    hide First, Step, StoreInv, ChildId, RootId, WorkflowInv, Commit, AwaitedAfter, AwaitInv;
    if a.Progress? {
      MoveShape(code, s, s.runs[a.rid], a.choice);
    }
    AuditOfAwaited(code, s, a);
    hide AuditAfter;
    CommitToWaiting(s, t, s.now, cfg.lockDuration, TxOf(code, s, a), id);
    if t.store.rows[id].status == WAITING {
      IdleAfter(code, cfg, s, a, id);
    }
  }

  lemma IdleAfter(code: Code, cfg: Config, s: State, a: Action, id: Id)
    requires Idle(s, id) && Enabled(code, s, a) && id in s.store.rows && s.store.rows[id].status == WAITING
    ensures Idle(Apply(code, cfg, s, a), id)
  {
    hide First, Step, AuditAfter, SeenAfter, Commit;
    if a.Progress? {
      MoveShape(code, s, s.runs[a.rid], a.choice);
    }
  }

  lemma MoverWaiting(code: Code, cfg: Config, s: State, a: Action)
    requires ProgressInv(code, s) && Enabled(code, s, a) && Permits(code, Exclusive(true), s, a) && a.Progress?
    ensures var id := s.runs[a.rid].wf;
      id in Apply(code, cfg, s, a).store.rows && WaitingOk(code, Apply(code, cfg, s, a), id)
  {
    hide First, Step, StoreInv, AuditAfter, Commit, WorkflowInv, RunInv, WaitingOk, LockOk, RestorableOutcome;
    var t := Apply(code, cfg, s, a);
    var r := s.runs[a.rid];
    var id := r.wf;
    assert RunOk(code, s.store, r) && RunOnTrace(code, s, r) && WorkflowOk(code, s, id) && FamilyInv(code, s);
    assert OneRunEach(s) && s.Awaited(id) == {} by {
      UnmarkedWhileRunning(code, s, id);
    }
    ApplyKeepsFamily(code, cfg, s, a);
    SameFlow(code, s, t, id);
    hide ProgressInv;
    MoverMarks(code, cfg, s, a);
    if MoveOf(code, s, r, a.choice).next.Some? {
      OthersKeepRunning(code, cfg, s, a, id);
      MoveShape(code, s, r, a.choice);
      NotWaiting(code, t, id);
    } else {
      EndingMoves(code, s, r, a.choice);
      EndingMoveReleases(code, cfg, s, a);
      OwnLogIsCommitted(code, s, a, cfg.lockDuration);
      MarkedAtFrontier(code, s, r, a.choice);
      if TxOf(code, s, a).Reschedule? {
        RescheduleKeepsStatus(s.store, s.now, cfg.lockDuration, TxOf(code, s, a));
      }
      hide FamilyInv, RunOk, RunOnTrace, WorkflowOk, FlowAt;
      MarkedWaits(code, cfg, s, a);
    }
  }

  lemma RescheduleKeepsStatus(s: Store, now: Time, lockDuration: Time, tx: Tx)
    requires Valid(s, tx) && tx.Reschedule?
    ensures tx.id in Commit(s, now, lockDuration, tx).rows
    ensures Commit(s, now, lockDuration, tx).rows[tx.id].status == s.rows[tx.id].status
  {
  }

  lemma UnmarkedWhileRunning(code: Code, s: State, id: Id)
    requires ProgressInv(code, s) && id in s.store.rows && s.store.rows[id].status == RUNNING
    ensures s.Awaited(id) == {}
  {
    hide ReplayInv, AwaitInv, First;
    assert WaitingOk(code, s, id);
  }

  /** A row without marks has one after its run's move exactly if that was an accepted mark. */
  lemma MoverMarks(code: Code, cfg: Config, s: State, a: Action)
    requires Enabled(code, s, a) && a.Progress? && s.Awaited(s.runs[a.rid].wf) == {}
    ensures var id, tx := s.runs[a.rid].wf, TxOf(code, s, a);
      Apply(code, cfg, s, a).Awaited(id) ==
      if tx.MarkWaiting? && First(s.Log(id), tx.awaited).None? then {tx.awaited} else {}
  {
    hide First, Step, Commit, SeenAfter, RunsAfter;
    MoveShape(code, s, s.runs[a.rid], a.choice);
    AuditOfAwaited(code, s, a);
    hide AuditAfter;
  }

  lemma NotWaiting(code: Code, s: State, id: Id)
    requires id in s.store.rows && s.store.rows[id].status == RUNNING && s.Awaited(id) == {}
    ensures WaitingOk(code, s, id)
  {
    hide First;
  }

  /** The run has ended with its row marked, or in another way. */
  lemma MarkedWaits(code: Code, cfg: Config, s: State, a: Action)
    requires OneRunEach(s) && Enabled(code, s, a) && a.Progress? && s.runs[a.rid].wf in s.store.rows
    requires var r := s.runs[a.rid]; var m := MoveOf(code, s, r, a.choice); var t := Apply(code, cfg, s, a);
      && m.next.None? && r.wf in t.store.rows && Released(t.store.rows[r.wf], m.tx)
      && t.Log(r.wf) == OwnLog(s.store, s.Log(r.wf), m.tx) && FlowAt(code, t, r.wf) == FlowAt(code, s, r.wf)
      && (m.tx.MarkWaiting? ==>
            && First(s.Log(r.wf), m.tx.awaited).None? && Waits(FlowAt(code, s, r.wf)(s.Seen(r.wf)))
            && m.tx.awaited == Settles(|s.Seen(r.wf)|, FlowAt(code, s, r.wf)(s.Seen(r.wf))))
      && (m.tx.Reschedule? ==> s.store.rows[r.wf].status == RUNNING && t.store.rows[r.wf].status == RUNNING)
      && t.Awaited(r.wf) == (if m.tx.MarkWaiting? then {m.tx.awaited} else {})
    ensures WaitingOk(code, Apply(code, cfg, s, a), s.runs[a.rid].wf)
  {
    hide First, Step, Commit, AuditAfter, FlowAt, Valid;
  }

  /** A successful mark happens at the end of the trace. */
  lemma MarkedAtFrontier(code: Code, s: State, r: Run, choice: Choice)
    requires FamilyInv(code, s) && RunOk(code, s.store, r) && RunOnTrace(code, s, r) && WorkflowOk(code, s, r.wf)
    requires CanStep(code, r, choice) && MoveOf(code, s, r, choice).next.None?
    ensures var tx := MoveOf(code, s, r, choice).tx;
      tx.MarkWaiting? ==>
        var w := FlowAt(code, s, r.wf);
        Waits(w(s.Seen(r.wf))) && tx.awaited == Settles(|s.Seen(r.wf)|, w(s.Seen(r.wf)))
    ensures !MoveOf(code, s, r, choice).tx.MarkWaiting? ==> !MoveOf(code, s, r, choice).tx.WriteEvent?
  {
    EndingMoves(code, s, r, choice);
    if r.pc.Marking? {
      StartOfHistory(s.store, r);
      var w := FlowAt(code, s, r.wf);
      UnsettledIsFrontier(code.classes, w, s.Log(r.wf), s.Seen(r.wf), s.now, r);
    } else {
      hide First, Count, FromJsonSafe, ToJsonSafe, SerializeArguments, ObsOf, StoreInv, ChildId, WorkflowInv, RunInv;
    }
  }

  lemma ApplyKeepsProgress(code: Code, cfg: Config, s: State, a: Action)
    requires ProgressInv(code, s) && Enabled(code, s, a) && Permits(code, Exclusive(true), s, a)
    ensures ProgressInv(code, Apply(code, cfg, s, a))
  {
    hide Permits, Enabled, WaitingOk, Apply, ReplayInv, Grows;
    var t := Apply(code, cfg, s, a);
    ApplyKeepsReplay(code, cfg, s, a);
    ApplyKeepsAwaits(code, cfg, s, a);
    assert s.audit.awaited.Keys <= s.store.rows.Keys && FamilyInv(code, s);
    hide AwaitInv, FamilyInv;
    forall id | id in t.store.rows
      ensures WaitingOk(code, t, id)
    {
      if id !in s.store.rows {
        NewcomerRuns(code, cfg, s, a, id);
      } else if Moves(s, a, id) {
        MoverWaiting(code, cfg, s, a);
      } else {
        BystanderWaiting(code, cfg, s, a, id);
      }
    }
  }

  lemma NewcomerRuns(code: Code, cfg: Config, s: State, a: Action, id: Id)
    requires FamilyInv(code, s) && s.audit.awaited.Keys <= s.store.rows.Keys && Enabled(code, s, a)
    requires id !in s.store.rows && id in Apply(code, cfg, s, a).store.rows
    ensures WaitingOk(code, Apply(code, cfg, s, a), id)
  {
    hide First, Step, AuditAfter, SeenAfter, ChildId, StoreInv, Commit, AwaitedAfter;
    ActionIsProper(code, s, a);
    AuditOfAwaited(code, s, a);
    CommitNewAwaits(s, s.now, cfg.lockDuration, TxOf(code, s, a));
    NotWaiting(code, Apply(code, cfg, s, a), id);
  }

  lemma InitProgress(code: Code, now: Time)
    ensures ProgressInv(code, Init(now))
  {
    InitReplay(code, now);
    InitFamily(code, now);
  }

  lemma {:induction false} ProgressHolds(code: Code, cfg: Config, s: State, acts: seq<Action>)
    requires ProgressInv(code, s) && Legal(code, cfg, Exclusive(true), s, acts)
    ensures ProgressInv(code, Final(code, cfg, Exclusive(true), s, acts))
    decreases |acts|
  {
    hide Apply, Enabled, Permits, ProgressInv;
    if acts != [] {
      ApplyKeepsProgress(code, cfg, s, acts[0]);
      ProgressHolds(code, cfg, Apply(code, cfg, s, acts[0]), acts[1..]);
    }
  }

  lemma ReachableProgress(code: Code, cfg: Config, s: State)
    requires Reachable(code, cfg, Exclusive(true), s)
    ensures ProgressInv(code, s)
  {
    hide Leads, Final, Legal, ProgressInv;
    var now, acts := ReachableBy(code, cfg, Exclusive(true), s);
    InitProgress(code, now);
    ProgressHolds(code, cfg, Init(now), acts);
  }

  /**
   * While runs do not overlap and results are restorable, what a WAITING row was marked for is the wait
   * its code stands at after the recorded trace: the prospect of a waiting workflow is its own command.
   */
  lemma MarkedForItsCommand(code: Code, cfg: Config, s: State, id: Id)
    requires Reachable(code, cfg, Exclusive(true), s) && id in s.store.rows
    ensures s.store.rows[id].status != WAITING ==> s.Awaited(id) == {}
    ensures s.store.rows[id].status == WAITING ==>
      var c := FlowAt(code, s, id)(s.Seen(id));
      && Waits(c) && s.Awaited(id) == {Settles(|s.Seen(id)|, c)}
      && (forall t :: GoesOn(s, id, AwaitsSignal(t)) ==> c == WaitSignal(t))
      && (forall x :: WaitsOn(s, id, x) ==> c == WaitChild(x))
  {
    hide Reachable, FlowAt, First, Count, ReplayInv, AwaitInv, NothingCame;
    ReachableProgress(code, cfg, s);
    assert WaitingOk(code, s, id);
  }
}
