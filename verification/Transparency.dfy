/**
 * Replay over whole behaviours: claims on any worker, crashes at any point, suspensions, wakes and
 * deliveries, as long as a workflow is claimed only while no run of it is in progress.
 */
module Transparency {
  import opened Wrappers
  import opened Ids
  import opened Serialization
  import opened Events
  import opened Transactions
  import opened Workflows
  import opened Machine
  import opened Cluster
  import opened Family
  import opened Replay

  // ----- The invariant -----

  ghost predicate WorkflowOk(code: Code, s: State, id: Id)
    requires id in s.store.rows
  {
    WorkflowInv(code.classes, FlowAt(code, s, id), s.Log(id), s.Seen(id), s.now)
  }

  ghost predicate RunOnTrace(code: Code, s: State, r: Run) {
    && r.wf in s.store.rows && s.store.rows[r.wf].status == RUNNING
    && RunInv(FlowAt(code, s, r.wf), s.Log(r.wf), s.Seen(r.wf), r)
  }

  ghost predicate OneRunEach(s: State) {
    forall i, j {:trigger s.runs[i], s.runs[j]} :: i in s.runs && j in s.runs && s.runs[i].wf == s.runs[j].wf ==> i == j
  }

  ghost predicate ReplayInv(code: Code, s: State) {
    && FamilyInv(code, s)
    && OneRunEach(s)
    && s.seen.Keys <= s.store.rows.Keys
    && (forall id {:trigger WorkflowOk(code, s, id)} :: id in s.store.rows ==> WorkflowOk(code, s, id))
    && (forall rid {:trigger s.runs[rid]} :: rid in s.runs ==> RunOnTrace(code, s, s.runs[rid]))
  }

  // ----- The rest of the system, seen from one workflow -----

  /** The workflow whose run makes this move, if the action is one. */
  predicate Moves(s: State, a: Action, id: Id) {
    a.Progress? && a.rid in s.runs && s.runs[a.rid].wf == id
  }

  /** To any workflow but the mover's, a transaction adds only signals and deliveries. */
  lemma OthersGrewAside(code: Code, s: State, a: Action, id: Id, now: Time, lockDuration: Time)
    requires Enabled(code, s, a) && s.store.Has(id) && !Moves(s, a, id)
    ensures GrewAside(s.Log(id), Commit(s.store, now, lockDuration, TxOf(code, s, a)).Log(id))
  {
    hide First, Step, Commit, RootId, ChildId, GrewAside;
    if a.Progress? {
      MoveShape(code, s, s.runs[a.rid], a.choice);
    }
    CommitGrewAside(s.store, now, lockDuration, TxOf(code, s, a), id);
  }

  lemma CommitGrewAside(s: Store, now: Time, lockDuration: Time, tx: Tx, id: Id)
    requires Valid(s, tx) && s.Has(id)
    requires tx.WriteEvent? || tx.Finish? ==> tx.id != id
    requires tx.CreateChild? ==> tx.parent != id
    ensures GrewAside(s.Log(id), Commit(s, now, lockDuration, tx).Log(id))
  {
    hide First;
  }

  lemma SameFlow(code: Code, s: State, t: State, id: Id)
    requires FamilyInv(code, s) && id in s.store.rows && Grows(s.store, t.store)
    ensures id in t.store.rows && FlowAt(code, t, id) == FlowAt(code, s, id)
  {
    assert StartedOk(s.store, id);
    FirstIsStable(s.Log(id), t.Log(id), IsStarted);
  }

  /** Only a successful mark and a terminal transaction take a row out of RUNNING. */
  lemma CommitKeepsRunning(s: Store, now: Time, lockDuration: Time, tx: Tx, id: Id)
    requires Valid(s, tx) && s.Has(id) && s.rows[id].status == RUNNING
    requires tx.Finish? ==> tx.id != id
    requires tx.MarkWaiting? && tx.id == id ==> First(s.Log(id), tx.awaited).Some?
    ensures id in Commit(s, now, lockDuration, tx).rows
    ensures Commit(s, now, lockDuration, tx).rows[id].status == RUNNING
  {
    hide First;
  }

  /** A row that a run is at work on stays RUNNING until that run itself ends. */
  lemma OthersKeepRunning(code: Code, cfg: Config, s: State, a: Action, id: Id)
    requires Enabled(code, s, a) && s.store.Has(id) && s.store.rows[id].status == RUNNING
    requires Moves(s, a, id) ==> MoveOf(code, s, s.runs[a.rid], a.choice).next.Some?
    ensures id in Apply(code, cfg, s, a).store.rows && Apply(code, cfg, s, a).store.rows[id].status == RUNNING
  {
    hide Step, First, ChildId, RootId, AuditAfter, SeenAfter;
    if a.Progress? {
      MoveShape(code, s, s.runs[a.rid], a.choice);
    }
    CommitKeepsRunning(s.store, s.now, cfg.lockDuration, TxOf(code, s, a), id);
  }

  // ----- The moving run -----

  /** What a move appends to the log of its own workflow. */
  function OwnLog(s: Store, log: Log, tx: Tx): Log {
    match tx
    case WriteEvent(_, e) => log + [e]
    case CreateChild(_, step, child, name, input) =>
      if child in s.rows then log else log + [ChildStarted(step, child, name, input)]
    case Finish(_, outcome, _) => log + [TerminalEvent(outcome)]
    case _ => log
  }

  lemma CommitOwnLog(s: Store, now: Time, lockDuration: Time, tx: Tx, id: Id)
    requires Valid(s, tx) && s.Has(id)
    requires !tx.CreateWorkflow? && !tx.WriteSignal?
    requires tx.WriteEvent? || tx.Finish? ==> tx.id == id
    requires tx.CreateChild? ==> tx.parent == id && tx.child != id
    requires tx.Finish? && tx.parentInfo.Some? ==> tx.parentInfo.value.workflowId != id
    ensures Commit(s, now, lockDuration, tx).Log(id) == OwnLog(s, s.Log(id), tx)
  {
    hide First;
  }

  lemma OwnLogIsCommitted(code: Code, s: State, a: Action, lockDuration: Time)
    requires FamilyInv(code, s) && Enabled(code, s, a) && a.Progress?
    ensures var id := s.runs[a.rid].wf;
      Commit(s.store, s.now, lockDuration, TxOf(code, s, a)).Log(id) == OwnLog(s.store, s.Log(id), TxOf(code, s, a))
  {
    var r := s.runs[a.rid];
    assert RunOk(code, s.store, r);
    MovesAreProper(code, s, r, a.choice);
    if s.store.rows[r.wf].parent.Some? {
      ParentIsAnother(s.store, r.wf);
    }
    ChildIdIsLonger(r.wf, r.At());
    MoveShape(code, s, r, a.choice);
    hide Step, First, Count, ChildId, StoreInv, OwnLog, Commit;
    CommitOwnLog(s.store, s.now, lockDuration, TxOf(code, s, a), r.wf);
  }

  ghost predicate MoveKeeps(code: Code, s: State, w: Workflow, r: Run, m: Move) {
    var log := OwnLog(s.store, s.Log(r.wf), m.tx);
    var seen := s.Seen(r.wf);
    var longer := if m.next.Some? && |seen| < |m.next.value.obs| then m.next.value.obs else seen;
    && seen <= longer
    && WorkflowInv(code.classes, w, log, longer, s.now)
    && (m.next.Some? ==> RunInv(w, log, longer, m.next.value))
  }

  lemma TerminalMoveKeeps(code: Code, s: State, w: Workflow, r: Run, m: Move)
    requires WorkflowInv(code.classes, w, s.Log(r.wf), s.Seen(r.wf), s.now)
    requires m.next.None? && !m.tx.WriteEvent? && !m.tx.CreateChild?
    ensures MoveKeeps(code, s, w, r, m)
  {
    AsideKeepsWorkflow(code.classes, w, s.Log(r.wf), OwnLog(s.store, s.Log(r.wf), m.tx), s.Seen(r.wf), s.now, s.now);
  }

  lemma DecideKeeps(code: Code, s: State, w: Workflow, r: Run)
    requires FamilyInv(code, s) && s.store.Has(r.wf) && w == FlowOfRun(code, r) && r.pc.Deciding?
    requires WorkflowInv(code.classes, w, s.Log(r.wf), s.Seen(r.wf), s.now) && RunInv(w, s.Log(r.wf), s.Seen(r.wf), r)
    ensures MoveKeeps(code, s, w, r, Decide(code, s.now, r))
  {
    var cs, log, seen := code.classes, s.Log(r.wf), s.Seen(r.wf);
    var n, c := r.At(), w(r.obs);
    var m := Decide(code, s.now, r);
    hide WorkflowInv, RunInv, First, Count, ToJsonSafe, FromJsonSafe, SerializeArguments, Explains;
    if m.next.None? {
      TerminalMoveKeeps(code, s, w, r, m);
    } else if c.Activity? {
      DecideActivityKeeps(code, s, w, r);
    } else if c.Sleep? {
      DecideSleepKeeps(code, s, w, r);
    } else {
      DecideOtherKeeps(code, s, w, r);
    }
  }

  lemma DecideSettledKeeps(code: Code, s: State, w: Workflow, r: Run, o: Obs)
    requires w == FlowOfRun(code, r) && r.pc.Deciding?
    requires WorkflowInv(code.classes, w, s.Log(r.wf), s.Seen(r.wf), s.now) && RunInv(w, s.Log(r.wf), s.Seen(r.wf), r)
    requires Lookup(code.classes, r.hist, r.At(), w(r.obs)) == Some(o)
    requires w(r.obs).Sleep? ==>
      First(r.hist, AtStep(r.At(), SleepingKind)).Some? && First(r.hist, AtStep(r.At(), SleepingKind)).value.wakeupAt <= s.now
    ensures MoveKeeps(code, s, w, r, Move(NoTx, Some(r.Observe(o))))
  {
    assert r.hist <= s.Log(r.wf);
    hide First, Count, Explains, Lookup, WorkflowInv, RunInv, FlowOf, MoveKeeps;
    LookupIsStable(code.classes, r.hist, s.Log(r.wf), r.At(), w(r.obs));
    if w(r.obs).Sleep? {
      FirstIsStable(r.hist, s.Log(r.wf), AtStep(r.At(), SleepingKind));
    }
    PassSettled(code.classes, w, s.Log(r.wf), s.Seen(r.wf), s.now, r, o);
    ObservingKeeps(code, s, w, r, o);
  }

  lemma ObservingKeeps(code: Code, s: State, w: Workflow, r: Run, o: Obs)
    requires WorkflowInv(code.classes, w, s.Log(r.wf), SeenWith(s.Seen(r.wf), r.obs, o), s.now)
    requires RunInv(w, s.Log(r.wf), SeenWith(s.Seen(r.wf), r.obs, o), r.Observe(o))
    requires s.Seen(r.wf) <= SeenWith(s.Seen(r.wf), r.obs, o)
    ensures MoveKeeps(code, s, w, r, Move(NoTx, Some(r.Observe(o))))
  {
    hide WorkflowInv, RunInv;
  }

  lemma DecideActivityKeeps(code: Code, s: State, w: Workflow, r: Run)
    requires w == FlowOfRun(code, r) && r.pc.Deciding? && w(r.obs).Activity?
    requires WorkflowInv(code.classes, w, s.Log(r.wf), s.Seen(r.wf), s.now) && RunInv(w, s.Log(r.wf), s.Seen(r.wf), r)
    requires Decide(code, s.now, r).next.Some?
    ensures MoveKeeps(code, s, w, r, Decide(code, s.now, r))
  {
    var cs, log, seen := code.classes, s.Log(r.wf), s.Seen(r.wf);
    hide WorkflowInv, RunInv, First, Count, ToJsonSafe, FromJsonSafe, SerializeArguments, Explains, ObsOf;
    var settled := Lookup(cs, r.hist, r.At(), w(r.obs));
    if settled.Some? {
      DecideSettledKeeps(code, s, w, r, settled.value);
    } else if First(r.hist, AtStep(r.At(), ScheduledKind)).Some? {
      ResumeStep(cs, w, log, seen, r);
      ObsWithinSeen(w, log, seen, r);
    } else {
      ScheduleStep(cs, w, log, seen, s.now, r, Scheduled(r.At(), w(r.obs).name, SerializeArguments(w(r.obs).call)));
      ObsWithinSeen(w, log, seen, r);
    }
  }

  lemma ObsWithinSeen(w: Workflow, log: Log, seen: seq<Obs>, r: Run)
    requires RunInv(w, log, seen, r) && !r.pc.Claimed?
    ensures |r.obs| <= |seen|
  {
  }

  lemma DecideSleepKeeps(code: Code, s: State, w: Workflow, r: Run)
    requires w == FlowOfRun(code, r) && r.pc.Deciding? && w(r.obs).Sleep?
    requires WorkflowInv(code.classes, w, s.Log(r.wf), s.Seen(r.wf), s.now) && RunInv(w, s.Log(r.wf), s.Seen(r.wf), r)
    requires Decide(code, s.now, r).next.Some?
    ensures MoveKeeps(code, s, w, r, Decide(code, s.now, r))
  {
    hide WorkflowInv, RunInv, First, Count, Explains;
    if First(r.hist, AtStep(r.At(), SleepingKind)).Some? {
      DecideSettledKeeps(code, s, w, r, Slept);
    } else {
      ParkStep(code.classes, w, s.Log(r.wf), s.Seen(r.wf), s.now, r);
      ObsWithinSeen(w, s.Log(r.wf), s.Seen(r.wf), r);
    }
  }

  /** A fresh spawn meets no earlier CHILD_STARTED: the snapshot would have shown it. */
  lemma SpawnIsFirst(code: Code, s: State, w: Workflow, r: Run)
    requires FamilyInv(code, s) && s.store.Has(r.wf)
    requires RunInv(w, s.Log(r.wf), s.Seen(r.wf), r) && r.pc.Deciding? && w(r.obs).Spawn?
    requires Lookup(code.classes, r.hist, r.At(), w(r.obs)).None?
    ensures Count(s.Log(r.wf), AtStep(r.At(), ChildStartedKind)) == 0
    ensures ChildId(r.wf, r.At()) !in s.store.rows
  {
    SnapshotAgrees(r.hist, s.Log(r.wf), r.At(), r.pc, ChildStartedKind);
    ScanIsExact(s.Log(r.wf), AtStep(r.At(), ChildStartedKind));
    hide First, Count, ChildId, StoreInv;
    if ChildId(r.wf, r.At()) in s.store.rows {
      TakenMeansSpawnedHere(s.store, r.wf, r.At());
    }
  }

  lemma DecideOtherKeeps(code: Code, s: State, w: Workflow, r: Run)
    requires FamilyInv(code, s) && s.store.Has(r.wf)
    requires w == FlowOfRun(code, r) && r.pc.Deciding? && !w(r.obs).Activity? && !w(r.obs).Sleep?
    requires WorkflowInv(code.classes, w, s.Log(r.wf), s.Seen(r.wf), s.now) && RunInv(w, s.Log(r.wf), s.Seen(r.wf), r)
    requires Decide(code, s.now, r).next.Some?
    ensures MoveKeeps(code, s, w, r, Decide(code, s.now, r))
  {
    var cs, log, seen := code.classes, s.Log(r.wf), s.Seen(r.wf);
    hide WorkflowInv, RunInv, First, Count, ToJsonSafe, FromJsonSafe, Explains, ObsOf, ChildId, StoreInv;
    var c := w(r.obs);
    var settled := Lookup(cs, r.hist, r.At(), c);
    ObsWithinSeen(w, log, seen, r);
    if settled.Some? {
      DecideSettledKeeps(code, s, w, r, settled.value);
    } else if c.Spawn? {
      SpawnIsFirst(code, s, w, r);
      SpawnStep(cs, w, log, seen, s.now, r, ChildId(r.wf, r.At()));
    } else if First(r.hist, Marker(c)).Some? {
      MarkerFound(cs, w, log, seen, r);
    } else {
      MarkerStep(cs, w, log, seen, s.now, r, MarkerEvent(c));
    }
  }

  lemma MarkerFound(cs: Classes, w: Workflow, log: Log, seen: seq<Obs>, r: Run)
    requires RunInv(w, log, seen, r) && r.pc.Deciding? && Waits(w(r.obs))
    requires Lookup(cs, r.hist, r.At(), w(r.obs)).None?
    ensures RunInv(w, log, seen, r.(pc := Marking))
  {
    hide First, Count;
  }

  lemma StepKeeps(code: Code, s: State, w: Workflow, r: Run, choice: Choice)
    requires FamilyInv(code, s) && s.store.Has(r.wf) && CanStep(code, r, choice)
    requires w == FlowAt(code, s, r.wf) && (!r.pc.Claimed? ==> w == FlowOfRun(code, r))
    requires WorkflowInv(code.classes, w, s.Log(r.wf), s.Seen(r.wf), s.now) && RunInv(w, s.Log(r.wf), s.Seen(r.wf), r)
    requires choice.Succeeds? ==>
      RestoredResult(code.classes, ToJsonSafe(choice.value), CommandOf(code, r).annotation) == Result(choice.value)
    ensures MoveKeeps(code, s, w, r, MoveOf(code, s, r, choice))
  {
    var m := MoveOf(code, s, r, choice);
    MoveShape(code, s, r, choice);
    hide WorkflowInv, RunInv, First, Count, ToJsonSafe, FromJsonSafe, Explains, ObsOf, Decide, FamilyInv;
    if m.next.None? {
      if r.pc.Deciding? {
        DecideKeeps(code, s, w, r);
      } else {
        TerminalMoveKeeps(code, s, w, r, m);
      }
    } else if r.pc.Deciding? {
      DecideKeeps(code, s, w, r);
    } else if r.pc.BodyRunning? {
      OutcomeKeeps(code, s, w, r, choice);
    } else {
      LocalMoveKeeps(code, s, w, r, choice);
    }
  }

  lemma OutcomeKeeps(code: Code, s: State, w: Workflow, r: Run, choice: Choice)
    requires s.store.Has(r.wf) && CanStep(code, r, choice) && r.pc.BodyRunning? && w == FlowOfRun(code, r)
    requires WorkflowInv(code.classes, w, s.Log(r.wf), s.Seen(r.wf), s.now) && RunInv(w, s.Log(r.wf), s.Seen(r.wf), r)
    requires choice.Succeeds? ==>
      RestoredResult(code.classes, ToJsonSafe(choice.value), CommandOf(code, r).annotation) == Result(choice.value)
    ensures MoveKeeps(code, s, w, r, MoveOf(code, s, r, choice))
  {
    var cs, log, seen := code.classes, s.Log(r.wf), s.Seen(r.wf);
    hide WorkflowInv, RunInv, First, Count, ToJsonSafe, FromJsonSafe, Explains, ObsOf, Decide;
    ObsWithinSeen(w, log, seen, r);
    var k := Count(r.hist, AtStep(r.At(), FailedKind));
    if choice.Succeeds? {
      CompleteStep(cs, w, log, seen, s.now, r, choice.value, k + 1);
    } else {
      FailStep(cs, w, log, seen, s.now, r, choice.error, k);
    }
  }

  /** Loading history, starting a body, a refused mark, and the reload after it. */
  lemma LocalMoveKeeps(code: Code, s: State, w: Workflow, r: Run, choice: Choice)
    requires s.store.Has(r.wf) && CanStep(code, r, choice) && !r.pc.Deciding? && !r.pc.BodyRunning?
    requires !r.pc.Claimed? ==> w == FlowOfRun(code, r)
    requires WorkflowInv(code.classes, w, s.Log(r.wf), s.Seen(r.wf), s.now) && RunInv(w, s.Log(r.wf), s.Seen(r.wf), r)
    requires MoveOf(code, s, r, choice).next.Some?
    ensures MoveKeeps(code, s, w, r, MoveOf(code, s, r, choice))
  {
    hide WorkflowInv, First, Count, Explains, ObsOf;
    if r.pc.Reloading? {
      var o := Lookup(code.classes, s.Log(r.wf), r.At(), w(r.obs)).value;
      PassSettled(code.classes, w, s.Log(r.wf), s.Seen(r.wf), s.now, r, o);
    }
  }

  // ----- Preservation -----

  lemma MoverAfter(code: Code, cfg: Config, s: State, a: Action)
    requires ReplayInv(code, s) && Enabled(code, s, a) && Permits(code, Exclusive(true), s, a) && a.Progress?
    ensures var t := Apply(code, cfg, s, a); var id := s.runs[a.rid].wf;
      && id in t.store.rows && s.Seen(id) <= t.Seen(id) && WorkflowOk(code, t, id)
      && (a.rid in t.runs ==> t.runs[a.rid].wf == id && RunInv(FlowAt(code, t, id), t.Log(id), t.Seen(id), t.runs[a.rid]))
  {
    hide Step, Commit, WorkflowInv, RunInv, First, Count, StoreInv, AuditAfter, Grows, OwnLog;
    var t := Apply(code, cfg, s, a);
    var r := s.runs[a.rid];
    var w := FlowAt(code, s, r.wf);
    assert RunOk(code, s.store, r) && RunOnTrace(code, s, r) && WorkflowOk(code, s, r.wf) && FamilyInv(code, s);
    hide ReplayInv;
    if !r.pc.Claimed? {
      StartOfHistory(s.store, r);
    }
    ApplyKeepsFamily(code, cfg, s, a);
    SameFlow(code, s, t, r.wf);
    StepKeeps(code, s, w, r, a.choice);
    hide FlowOf, FamilyInv, RunOk;
    OwnLogIsCommitted(code, s, a, cfg.lockDuration);
    MoveShape(code, s, r, a.choice);
  }

  lemma RowsHaveLogs(code: Code, s: State)
    requires FamilyInv(code, s)
    ensures s.store.rows.Keys == s.store.logs.Keys
  {
  }

  lemma BystanderAfter(code: Code, cfg: Config, s: State, a: Action, id: Id)
    requires ReplayInv(code, s) && Enabled(code, s, a) && id in s.store.rows && !Moves(s, a, id)
    ensures var t := Apply(code, cfg, s, a);
      && id in t.store.rows && t.Seen(id) == s.Seen(id) && WorkflowOk(code, t, id)
      && FlowAt(code, t, id) == FlowAt(code, s, id) && GrewAside(s.Log(id), t.Log(id))
  {
    hide WorkflowInv, Commit, Step, StoreInv, First, AuditAfter, RunOnTrace, GrewAside, FlowOf;
    var t := Apply(code, cfg, s, a);
    assert WorkflowOk(code, s, id) && FamilyInv(code, s) && s.store.Has(id) by {
      RowsHaveLogs(code, s);
    }
    hide ReplayInv;
    ActionIsProper(code, s, a);
    hide Proper;
    ApplyKeepsFamily(code, cfg, s, a);
    OthersGrewAside(code, s, a, id, s.now, cfg.lockDuration);
    SameFlow(code, s, t, id);
    hide FamilyInv, Valid;
    if a.Progress? {
      MoveShape(code, s, s.runs[a.rid], a.choice);
    }
    AsideKeepsWorkflow(code.classes, FlowAt(code, s, id), s.Log(id), t.Log(id), s.Seen(id), s.now, t.now);
  }

  lemma NewcomerAfter(code: Code, cfg: Config, s: State, a: Action, id: Id)
    requires ReplayInv(code, s) && Enabled(code, s, a) && id !in s.store.rows && id in Apply(code, cfg, s, a).store.rows
    ensures WorkflowOk(code, Apply(code, cfg, s, a), id)
  {
    var t := Apply(code, cfg, s, a);
    NewcomerIsFresh(code, cfg, s, a, id);
    hide Apply, Enabled, ReplayInv, FamilyInv, WorkflowInv, FlowOf, First;
    assert t.Log(id) == [t.Log(id)[0]];
    FreshWorkflow(code.classes, FlowAt(code, t, id), t.Log(id)[0], t.now);
  }

  lemma NewcomerIsFresh(code: Code, cfg: Config, s: State, a: Action, id: Id)
    requires ReplayInv(code, s) && Enabled(code, s, a) && id !in s.store.rows && id in Apply(code, cfg, s, a).store.rows
    ensures var t := Apply(code, cfg, s, a); |t.Log(id)| == 1 && t.Log(id)[0].Started? && t.Seen(id) == []
  {
    hide First, ChildId, RootId, WorkflowOk, RunOnTrace, OneRunEach, Step, Commit, AuditAfter, StoreInv, PcFits;
    RowsHaveLogs(code, s);
    if a.Progress? {
      assert RunOk(code, s.store, s.runs[a.rid]);
      MoveShape(code, s, s.runs[a.rid], a.choice);
    }
    hide FamilyInv, RunOk;
    CommitNewcomer(s.store, s.now, cfg.lockDuration, TxOf(code, s, a), id);
  }

  /** A row that was not there before comes with its STARTED event and nothing else. */
  lemma CommitNewcomer(s: Store, now: Time, lockDuration: Time, tx: Tx, id: Id)
    requires Valid(s, tx) && s.rows.Keys == s.logs.Keys && id !in s.rows && id in Commit(s, now, lockDuration, tx).rows
    ensures var log := Commit(s, now, lockDuration, tx).Log(id); |log| == 1 && log[0].Started?
  {
    hide First;
  }

  lemma RunAfter(code: Code, cfg: Config, s: State, a: Action, rid: RunId)
    requires ReplayInv(code, s) && Enabled(code, s, a) && Permits(code, Exclusive(true), s, a)
    requires rid in Apply(code, cfg, s, a).runs
    ensures RunOnTrace(code, Apply(code, cfg, s, a), Apply(code, cfg, s, a).runs[rid])
  {
    hide Step, Commit, WorkflowInv, RunInv, First, AuditAfter, SeenAfter, Valid, FamilyInv, RestorableOutcome;
    hide PcFits, WorkflowOk, FlowOf, GrewAside;
    var t := Apply(code, cfg, s, a);
    if rid in s.runs {
      var r := s.runs[rid];
      RowsHaveLogs(code, s);
      assert RunOnTrace(code, s, r) && s.store.Has(r.wf);
      OthersKeepRunning(code, cfg, s, a, r.wf);
      if a.Progress? && a.rid == rid {
        MoverAfter(code, cfg, s, a);
      } else {
        assert !Moves(s, a, r.wf);
        BystanderAfter(code, cfg, s, a, r.wf);
        AsideKeepsRun(FlowAt(code, s, r.wf), s.Log(r.wf), t.Log(r.wf), s.Seen(r.wf), t.Seen(r.wf), r);
        BeatKeepsRun(FlowAt(code, s, r.wf), t.Log(r.wf), t.Seen(r.wf), r, t.runs[rid]);
      }
    } else {
      ClaimStartsRunning(code, cfg, s, a, rid);
    }
  }

  lemma BeatKeepsRun(w: Workflow, log: Log, seen: seq<Obs>, r: Run, r': Run)
    requires RunInv(w, log, seen, r) && r' == r.(due := r'.due)
    ensures RunInv(w, log, seen, r')
  {
    hide First;
  }

  lemma ClaimStartsRunning(code: Code, cfg: Config, s: State, a: Action, rid: RunId)
    requires Enabled(code, s, a) && rid in Apply(code, cfg, s, a).runs && rid !in s.runs
    ensures RunOnTrace(code, Apply(code, cfg, s, a), Apply(code, cfg, s, a).runs[rid])
  {
    hide Step, First;
  }

  lemma ApplyKeepsReplay(code: Code, cfg: Config, s: State, a: Action)
    requires ReplayInv(code, s) && Enabled(code, s, a) && Permits(code, Exclusive(true), s, a)
    ensures ReplayInv(code, Apply(code, cfg, s, a))
    ensures Grows(s.store, Apply(code, cfg, s, a).store)
    ensures forall id :: id in s.store.rows ==> s.Seen(id) <= Apply(code, cfg, s, a).Seen(id)
  {
    hide Apply, Permits, Enabled, FamilyInv, WorkflowOk, RunOnTrace, OneRunEach;
    var t := Apply(code, cfg, s, a);
    ApplyKeepsFamily(code, cfg, s, a);
    TracesStayKnown(code, cfg, s, a);
    RunsStayApart(code, cfg, true, s, a);
    forall id | id in t.store.rows
      ensures WorkflowOk(code, t, id)
      ensures id in s.store.rows ==> s.Seen(id) <= t.Seen(id)
    {
      if id !in s.store.rows {
        NewcomerAfter(code, cfg, s, a, id);
      } else if Moves(s, a, id) {
        MoverAfter(code, cfg, s, a);
      } else {
        BystanderAfter(code, cfg, s, a, id);
      }
    }
    forall rid | rid in t.runs
      ensures RunOnTrace(code, t, t.runs[rid])
    {
      RunAfter(code, cfg, s, a, rid);
    }
  }

  lemma TracesStayKnown(code: Code, cfg: Config, s: State, a: Action)
    requires ReplayInv(code, s) && Enabled(code, s, a) && Grows(s.store, Apply(code, cfg, s, a).store)
    ensures Apply(code, cfg, s, a).seen.Keys <= Apply(code, cfg, s, a).store.rows.Keys
  {
    hide Step, Commit, First, StoreInv, AuditAfter, WorkflowOk;
    if a.Progress? {
      assert RunOnTrace(code, s, s.runs[a.rid]);
      MoveShape(code, s, s.runs[a.rid], a.choice);
    }
  }

  lemma RunsStayApart(code: Code, cfg: Config, restorable: bool, s: State, a: Action)
    requires OneRunEach(s) && Enabled(code, s, a) && Permits(code, Exclusive(restorable), s, a)
    ensures OneRunEach(Apply(code, cfg, s, a))
  {
    hide Step, Commit, First, AuditAfter, SeenAfter, RestorableOutcome;
    if a.Progress? {
      MoveShape(code, s, s.runs[a.rid], a.choice);
    }
  }

  lemma InitReplay(code: Code, now: Time)
    ensures ReplayInv(code, Init(now))
  {
  }

  lemma {:induction false} ReplayHolds(code: Code, cfg: Config, s: State, acts: seq<Action>)
    requires ReplayInv(code, s) && Legal(code, cfg, Exclusive(true), s, acts)
    ensures ReplayInv(code, Final(code, cfg, Exclusive(true), s, acts))
    ensures Grows(s.store, Final(code, cfg, Exclusive(true), s, acts).store)
    ensures forall id :: id in s.store.rows ==> s.Seen(id) <= Final(code, cfg, Exclusive(true), s, acts).Seen(id)
    decreases |acts|
  {
    hide Apply, Enabled, Permits, ReplayInv;
    if acts != [] {
      ApplyKeepsReplay(code, cfg, s, acts[0]);
      ReplayHolds(code, cfg, Apply(code, cfg, s, acts[0]), acts[1..]);
    }
  }

  lemma ReachableReplay(code: Code, cfg: Config, s: State)
    requires Reachable(code, cfg, Exclusive(true), s)
    ensures ReplayInv(code, s)
  {
    hide ReplayInv, Leads, Legal, Final;
    var now, acts := ReachableBy(code, cfg, Exclusive(true), s);
    InitReplay(code, now);
    ReplayHolds(code, cfg, Init(now), acts);
  }
}
