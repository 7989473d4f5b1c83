/**
 * What runs record while they do not overlap, whether or not results are restorable: every kind of event
 * at most once per step, and nothing at a step that the snapshot of the run at work there does not show.
 */
module Recording {
  import opened Wrappers
  import opened Ids
  import opened Serialization
  import opened Events
  import opened Transactions
  import opened Workflows
  import opened Machine
  import opened Cluster
  import opened Family
  import opened Replay
  import opened Transparency

  // ----- One run at a time -----

  ghost predicate ExclusiveInv(code: Code, s: State) {
    && FamilyInv(code, s) && OneRunEach(s)
    && forall rid {:trigger s.runs[rid]} :: rid in s.runs ==>
      s.runs[rid].wf in s.store.rows && s.store.rows[s.runs[rid].wf].status == RUNNING
  }

  lemma ApplyKeepsExclusive(code: Code, cfg: Config, restorable: bool, s: State, a: Action)
    requires ExclusiveInv(code, s) && Enabled(code, s, a) && Permits(code, Exclusive(restorable), s, a)
    ensures ExclusiveInv(code, Apply(code, cfg, s, a))
  {
    hide Step, Commit, First, FamilyInv, AuditAfter, SeenAfter, RestorableOutcome, PcFits, CommandOf;
    var t := Apply(code, cfg, s, a);
    ApplyKeepsFamily(code, cfg, s, a);
    RunsStayApart(code, cfg, restorable, s, a);
    RowsHaveLogs(code, s);
    if a.Progress? {
      MoveShape(code, s, s.runs[a.rid], a.choice);
    }
    forall rid | rid in t.runs
      ensures t.runs[rid].wf in t.store.rows && t.store.rows[t.runs[rid].wf].status == RUNNING
    {
      if rid in s.runs {
        assert s.store.rows[s.runs[rid].wf].status == RUNNING;
        hide OneRunEach;
        OthersKeepRunning(code, cfg, s, a, s.runs[rid].wf);
      } else {
        ClaimKeepsRunning(code, cfg, s, a, rid);
      }
    }
  }

  lemma ClaimKeepsRunning(code: Code, cfg: Config, s: State, a: Action, rid: RunId)
    requires Enabled(code, s, a) && rid in Apply(code, cfg, s, a).runs && rid !in s.runs
    ensures var t := Apply(code, cfg, s, a);
      t.runs[rid].wf in t.store.rows && t.store.rows[t.runs[rid].wf].status == RUNNING
  {
    hide Step, First;
  }

  lemma {:induction false} ExclusiveHolds(code: Code, cfg: Config, restorable: bool, s: State, acts: seq<Action>)
    requires ExclusiveInv(code, s) && Legal(code, cfg, Exclusive(restorable), s, acts)
    ensures ExclusiveInv(code, Final(code, cfg, Exclusive(restorable), s, acts))
    decreases |acts|
  {
    hide Apply, Enabled, Permits, ExclusiveInv;
    if acts != [] {
      ApplyKeepsExclusive(code, cfg, restorable, s, acts[0]);
      ExclusiveHolds(code, cfg, restorable, Apply(code, cfg, s, acts[0]), acts[1..]);
    }
  }

  lemma ReachableExclusive(code: Code, cfg: Config, restorable: bool, s: State)
    requires Reachable(code, cfg, Exclusive(restorable), s)
    ensures ExclusiveInv(code, s)
  {
    hide Leads, Legal, Final;
    var now, acts := ReachableBy(code, cfg, Exclusive(restorable), s);
    assert ExclusiveInv(code, Init(now)) by {
      InitFamily(code, now);
    }
    hide ExclusiveInv;
    ExclusiveHolds(code, cfg, restorable, Init(now), acts);
  }

  // ----- The invariant -----

  /** The run has loaded all that is recorded about the step it is at, but for what it has just written. */
  ghost predicate OnRecord(code: Code, s: State, r: Run) {
    && r.wf in s.store.rows && |r.obs| <= |s.Seen(r.wf)|
    && RunInv(FlowAt(code, s, r.wf), s.Log(r.wf), r.obs, r)
  }

  ghost predicate RecordInv(code: Code, s: State) {
    && ExclusiveInv(code, s)
    && (forall id {:trigger s.Log(id)} :: id in s.store.rows ==> AtMostOnce(s.Log(id)))
    && (forall rid {:trigger s.runs[rid]} :: rid in s.runs ==> OnRecord(code, s, s.runs[rid]))
  }

  lemma RecordIsExclusive(code: Code, s: State)
    requires RecordInv(code, s)
    ensures ExclusiveInv(code, s) && FamilyInv(code, s) && OneRunEach(s)
  {
    hide FamilyInv, OneRunEach;
  }

  /** What is known of a run that can make a move. */
  lemma RunOfRecord(code: Code, s: State, rid: RunId)
    requires RecordInv(code, s) && rid in s.runs
    ensures var r := s.runs[rid];
      && FamilyInv(code, s) && RunOk(code, s.store, r) && OnRecord(code, s, r)
      && r.wf in s.store.rows && s.store.rows[r.wf].status == RUNNING && AtMostOnce(s.Log(r.wf))
      && (!r.pc.Claimed? ==> FlowAt(code, s, r.wf) == FlowOfRun(code, r))
  {
    hide First, Count, StoreInv, RunInv, OneRunEach;
    var r := s.runs[rid];
    assert ExclusiveInv(code, s) && FamilyInv(code, s) && OnRecord(code, s, r) && RunOk(code, s.store, r);
    assert AtMostOnce(s.Log(r.wf));
    if !r.pc.Claimed? {
      StartOfHistory(s.store, r);
    }
  }

  // ----- What a run writes -----

  lemma OnceAfter(log: Log, e: Event)
    requires AtMostOnce(log)
    requires StepIndex(e) >= 0 && OnlyOnce(e) ==> Count(log, AtStep(StepIndex(e), KindOf(e))) == 0
    ensures AtMostOnce(log + [e])
  {
    AppendScans(log, e);
    hide First, Count;
  }

  lemma OwnOnce(s: Store, log: Log, tx: Tx)
    requires AtMostOnce(log)
    requires tx.WriteEvent? && StepIndex(tx.event) >= 0 && OnlyOnce(tx.event) ==>
      Count(log, AtStep(StepIndex(tx.event), KindOf(tx.event))) == 0
    ensures AtMostOnce(OwnLog(s, log, tx))
  {
    hide AtMostOnce, Count;
    match tx
    case WriteEvent(_, e) => OnceAfter(log, e);
    case CreateChild(_, step, child, name, input) => OnceAfter(log, ChildStarted(step, child, name, input));
    case Finish(_, outcome, _) => OnceAfter(log, TerminalEvent(outcome));
    case _ =>
  }

  /** A run writes an event that belongs once to a step only if the log has none yet: its snapshot would show it. */
  lemma WritesWhatIsMissing(code: Code, s: State, r: Run, choice: Choice)
    requires CanStep(code, r, choice) && (!r.pc.Claimed? ==> FlowAtRun(code, s, r))
    requires r.wf in s.store.rows && RunInv(FlowAt(code, s, r.wf), s.Log(r.wf), r.obs, r)
    ensures var tx := MoveOf(code, s, r, choice).tx;
      tx.WriteEvent? && StepIndex(tx.event) >= 0 ==>
        && StepIndex(tx.event) == r.At()
        && (OnlyOnce(tx.event) ==> Count(s.Log(r.wf), AtStep(r.At(), KindOf(tx.event))) == 0)
  {
    var log, n := s.Log(r.wf), r.At();
    if r.pc.Deciding? {
      SnapshotAgrees(r.hist, log, n, r.pc, ScheduledKind);
      SnapshotAgrees(r.hist, log, n, r.pc, SleepingKind);
      ScanIsExact(log, AtStep(n, ScheduledKind));
      ScanIsExact(log, AtStep(n, SleepingKind));
    } else if r.pc.BodyRunning? {
      SnapshotAgrees(r.hist, log, n, r.pc, CompletedKind);
      ScanIsExact(log, AtStep(n, CompletedKind));
    }
    hide First, Count, ChildId, SerializeArguments, ToJsonSafe, Lookup, Settles, FlowOf, SnapshotCurrent;
  }

  ghost predicate FlowAtRun(code: Code, s: State, r: Run) {
    r.wf in s.store.rows && FlowAt(code, s, r.wf) == FlowOfRun(code, r)
  }

  // ----- What a run knows after its move -----

  /** The run after a move that writes at most one event, at the step it is at. */
  lemma NextOnRecord(code: Code, s: State, r: Run, choice: Choice)
    requires CanStep(code, r, choice) && FlowAtRun(code, s, r) && !r.pc.Claimed?
    requires MoveOf(code, s, r, choice).next.Some?
    requires RunInv(FlowAt(code, s, r.wf), s.Log(r.wf), r.obs, r)
    ensures var m := MoveOf(code, s, r, choice);
      RunInv(FlowAt(code, s, r.wf), OwnLog(s.store, s.Log(r.wf), m.tx), m.next.value.obs, m.next.value)
  {
    var w, log := FlowAt(code, s, r.wf), s.Log(r.wf);
    hide RunInv, First, Count, ChildId, SerializeArguments, ToJsonSafe, FromJsonSafe, ObsOf;
    var m := MoveOf(code, s, r, choice);
    if r.pc.Deciding? {
      DecidedOnRecord(code, s, r);
    } else if r.pc.BodyRunning? {
      WrittenOnRecord(w, log, r, m.tx.event, m.next.value);
    } else if r.pc.Reloading? {
      PassedOnRecord(w, log, log, r, m.next.value);
    } else {
      MovedOnRecord(w, log, r, m.next.value);
    }
  }

  lemma DecidedOnRecord(code: Code, s: State, r: Run)
    requires FlowAtRun(code, s, r) && r.pc.Deciding? && Decide(code, s.now, r).next.Some?
    requires RunInv(FlowAt(code, s, r.wf), s.Log(r.wf), r.obs, r)
    ensures var m := Decide(code, s.now, r);
      RunInv(FlowAt(code, s, r.wf), OwnLog(s.store, s.Log(r.wf), m.tx), m.next.value.obs, m.next.value)
  {
    var w, log, m := FlowAt(code, s, r.wf), s.Log(r.wf), Decide(code, s.now, r);
    hide RunInv, First, Count, ChildId, SerializeArguments, ToJsonSafe, FromJsonSafe, ObsOf;
    if m.next.value.pc.Deciding? {
      PassedOnRecord(w, log, OwnLog(s.store, log, m.tx), r, m.next.value);
    } else if m.tx.WriteEvent? {
      WrittenOnRecord(w, log, r, m.tx.event, m.next.value);
    } else if m.next.value.pc.BodyReady? {
      ResumeStep(code.classes, w, log, r.obs, r);
    } else {
      MovedOnRecord(w, log, r, m.next.value);
    }
  }

  /** A result is handed over; what was written is behind the run now. */
  lemma PassedOnRecord(w: Workflow, log: Log, more: Log, r: Run, r': Run)
    requires RunInv(w, log, r.obs, r) && !r.pc.Claimed? && log <= more
    requires forall p :: |log| <= p < |more| ==> StepIndex(more[p]) <= r.At()
    requires r'.pc.Deciding? && r'.hist == r.hist && |r'.obs| == |r.obs| + 1
    ensures RunInv(w, more, r'.obs, r')
  {
    hide First, Count;
    forall p | |r.hist| <= p < |more|
      ensures StepIndex(more[p]) < |r'.obs|
    {
      if p < |log| {
        assert more[p] == log[p];
      }
    }
  }

  /** The run goes on at the same step, with what it has just written there. */
  lemma WrittenOnRecord(w: Workflow, log: Log, r: Run, e: Event, r': Run)
    requires RunInv(w, log, r.obs, r) && (r.pc.Deciding? || r.pc.BodyRunning?)
    requires StepIndex(e) < 0 || StepIndex(e) == r.At()
    requires r'.hist == r.hist && PcFits(r'.pc, w(r'.obs))
    requires || (r'.pc.Deciding? && |r'.obs| == |r.obs| + 1)
             || (r'.pc.BodyReady? && r'.obs == r.obs && e.Scheduled? && First(r.hist, AtStep(r.At(), CompletedKind)).None?)
             || (r'.pc.Retrying? && r'.obs == r.obs && e.Failed? && r.pc.BodyRunning?)
             || (r'.pc.Parking? && r'.obs == r.obs && e.Sleeping? && e.wakeupAt == r'.pc.until
                 && First(r.hist, AtStep(r.At(), SleepingKind)).None? && r.pc.Deciding?)
             || (r'.pc.Marking? && r'.obs == r.obs && StepIndex(e) < 0 && First(r.hist, Settles(r.At(), w(r.obs))).None?)
    ensures RunInv(w, log + [e], r'.obs, r')
  {
    if r.pc.Deciding? {
      SnapshotAgrees(r.hist, log, r.At(), r.pc, SleepingKind);
    }
    AppendScans(log, e);
    hide First, Count;
    assert forall p {:trigger (log + [e])[p]} :: 0 <= p < |log| ==> (log + [e])[p] == log[p];
  }

  /** The run goes on at the same step and has written nothing. */
  lemma MovedOnRecord(w: Workflow, log: Log, r: Run, r': Run)
    requires RunInv(w, log, r.obs, r) && r'.hist == r.hist && r'.obs == r.obs && PcFits(r'.pc, w(r.obs))
    requires || (r.pc.BodyReady? && r'.pc.BodyRunning?)
             || (r.pc.Deciding? && r'.pc.Marking? && First(r.hist, Settles(r.At(), w(r.obs))).None?)
             || (r.pc.Marking? && r'.pc.Reloading?)
    ensures RunInv(w, log, r'.obs, r')
  {
    hide First, Count;
  }

  // ----- Preservation -----

  lemma MoverRecords(code: Code, cfg: Config, s: State, a: Action)
    requires RecordInv(code, s) && Enabled(code, s, a) && a.Progress?
    ensures var t, id := Apply(code, cfg, s, a), s.runs[a.rid].wf;
      && AtMostOnce(t.Log(id))
      && (a.rid in t.runs ==> OnRecord(code, t, t.runs[a.rid]))
  {
    hide Step, Commit, First, Count, StoreInv, AuditAfter, RunInv, OwnLog, FlowOf, AtMostOnce, KindOf;
    var t, r := Apply(code, cfg, s, a), s.runs[a.rid];
    RunOfRecord(code, s, a.rid);
    hide RecordInv;
    MoveShape(code, s, r, a.choice);
    OwnLogIsCommitted(code, s, a, cfg.lockDuration);
    WritesWhatIsMissing(code, s, r, a.choice);
    OwnOnce(s.store, s.Log(r.wf), TxOf(code, s, a));
    ApplyKeepsFamily(code, cfg, s, a);
    SameFlow(code, s, t, r.wf);
    hide FamilyInv, RunOk, FlowAt;
    if a.rid in t.runs {
      if r.pc.Claimed? {
        LoadedOnRecord(code, s, r, a.choice);
      } else {
        NextOnRecord(code, s, r, a.choice);
      }
    }
  }

  lemma LoadedOnRecord(code: Code, s: State, r: Run, choice: Choice)
    requires CanStep(code, r, choice) && r.pc.Claimed? && r.wf in s.store.rows
    ensures var m := MoveOf(code, s, r, choice);
      && m.next.Some? && m.next.value.obs == []
      && RunInv(FlowAt(code, s, r.wf), OwnLog(s.store, s.Log(r.wf), m.tx), m.next.value.obs, m.next.value)
  {
    hide First, Count;
  }

  lemma OthersOnRecord(code: Code, cfg: Config, s: State, a: Action, rid: RunId)
    requires RecordInv(code, s) && Enabled(code, s, a) && rid in s.runs && rid in Apply(code, cfg, s, a).runs
    requires !Moves(s, a, s.runs[rid].wf)
    ensures OnRecord(code, Apply(code, cfg, s, a), Apply(code, cfg, s, a).runs[rid])
  {
    hide Step, Commit, First, Count, StoreInv, AuditAfter, RunInv, FlowOf, AtMostOnce, GrewAside;
    var t, r := Apply(code, cfg, s, a), s.runs[rid];
    RunOfRecord(code, s, rid);
    RowsHaveLogs(code, s);
    hide RecordInv;
    OthersGrewAside(code, s, a, r.wf, s.now, cfg.lockDuration);
    ApplyKeepsFamily(code, cfg, s, a);
    SameFlow(code, s, t, r.wf);
    hide FamilyInv, RunOk, FlowAt;
    AsideKeepsRun(FlowAt(code, s, r.wf), s.Log(r.wf), t.Log(r.wf), r.obs, r.obs, r);
    BeatKeepsRun(FlowAt(code, s, r.wf), t.Log(r.wf), r.obs, r, t.runs[rid]);
  }

  lemma ClaimedOnRecord(code: Code, cfg: Config, s: State, a: Action, rid: RunId)
    requires Enabled(code, s, a) && rid !in s.runs && rid in Apply(code, cfg, s, a).runs
    ensures OnRecord(code, Apply(code, cfg, s, a), Apply(code, cfg, s, a).runs[rid])
  {
    hide Step, First;
  }

  lemma AsideOnce(log: Log, more: Log)
    requires AtMostOnce(log) && GrewAside(log, more)
    ensures AtMostOnce(more)
  {
    hide First, Count;
    forall i: nat
      ensures Count(more, AtStep(i, ScheduledKind)) <= 1
      ensures Count(more, AtStep(i, CompletedKind)) <= 1
      ensures Count(more, AtStep(i, SleepingKind)) <= 1
    {
      AsideScans(log, more, i, ScheduledKind);
      AsideScans(log, more, i, CompletedKind);
      AsideScans(log, more, i, SleepingKind);
    }
  }

  lemma RowRecords(code: Code, cfg: Config, s: State, a: Action, id: Id)
    requires RecordInv(code, s) && Enabled(code, s, a) && id in Apply(code, cfg, s, a).store.rows
    ensures AtMostOnce(Apply(code, cfg, s, a).Log(id))
  {
    hide Step, Commit, First, Count, AuditAfter, SeenAfter, RunsAfter, AtMostOnce, GrewAside, OnRecord, OneRunEach;
    RecordIsExclusive(code, s);
    RowsHaveLogs(code, s);
    if id !in s.store.rows {
      ActionIsProper(code, s, a);
      hide FamilyInv, RecordInv, Proper;
      CommitNewcomer(s.store, s.now, cfg.lockDuration, TxOf(code, s, a), id);
      var log := Apply(code, cfg, s, a).Log(id);
      StartOnce(log[0]);
      assert log == [log[0]];
    } else if Moves(s, a, id) {
      MoverRecords(code, cfg, s, a);
    } else {
      assert AtMostOnce(s.Log(id));
      OthersGrewAside(code, s, a, id, s.now, cfg.lockDuration);
      AsideOnce(s.Log(id), Apply(code, cfg, s, a).Log(id));
    }
  }

  lemma StartOnce(e: Event)
    requires e.Started?
    ensures AtMostOnce([e])
  {
    SingletonScans(e);
  }

  lemma ApplyKeepsRecord(code: Code, cfg: Config, restorable: bool, s: State, a: Action)
    requires RecordInv(code, s) && Enabled(code, s, a) && Permits(code, Exclusive(restorable), s, a)
    ensures RecordInv(code, Apply(code, cfg, s, a))
  {
    hide Apply, Enabled, Permits, ExclusiveInv, AtMostOnce, OnRecord, FamilyInv;
    var t := Apply(code, cfg, s, a);
    RecordIsExclusive(code, s);
    ApplyKeepsExclusive(code, cfg, restorable, s, a);
    forall id | id in t.store.rows
      ensures AtMostOnce(t.Log(id))
    {
      RowRecords(code, cfg, s, a, id);
    }
    forall rid | rid in t.runs
      ensures OnRecord(code, t, t.runs[rid])
    {
      if rid !in s.runs {
        ClaimedOnRecord(code, cfg, s, a, rid);
      } else if Moves(s, a, s.runs[rid].wf) {
        assert a.rid == rid;
        MoverRecords(code, cfg, s, a);
      } else {
        OthersOnRecord(code, cfg, s, a, rid);
      }
    }
  }

  lemma InitRecord(code: Code, now: Time)
    ensures RecordInv(code, Init(now))
  {
    InitFamily(code, now);
  }

  lemma {:induction false} RecordHolds(code: Code, cfg: Config, restorable: bool, s: State, acts: seq<Action>)
    requires RecordInv(code, s) && Legal(code, cfg, Exclusive(restorable), s, acts)
    ensures RecordInv(code, Final(code, cfg, Exclusive(restorable), s, acts))
    decreases |acts|
  {
    hide Apply, Enabled, Permits, RecordInv;
    if acts != [] {
      ApplyKeepsRecord(code, cfg, restorable, s, acts[0]);
      RecordHolds(code, cfg, restorable, Apply(code, cfg, s, acts[0]), acts[1..]);
    }
  }

  /**
   * Under any crashes, wakes and re-runs, and whether or not results are restorable: one SCHEDULED, one
   * COMPLETED, one SLEEP, one spawn per step, in every log that runs leave which do not overlap.
   */
  lemma StepsAreRecordedOnce(code: Code, cfg: Config, restorable: bool, s: State, id: Id, i: nat)
    requires Reachable(code, cfg, Exclusive(restorable), s) && id in s.store.rows
    ensures var log := s.Log(id);
      && Count(log, AtStep(i, ScheduledKind)) <= 1 && Count(log, AtStep(i, CompletedKind)) <= 1
      && Count(log, AtStep(i, SleepingKind)) <= 1 && Count(log, AtStep(i, ChildStartedKind)) <= 1
  {
    hide Leads, Final, Legal, Count, First, ChildId, OnRecord, ExclusiveInv;
    var now, acts := ReachableBy(code, cfg, Exclusive(restorable), s);
    InitRecord(code, now);
    RecordHolds(code, cfg, restorable, Init(now), acts);
    hide Reachable;
    RecordIsExclusive(code, s);
    assert AtMostOnce(s.Log(id)) && SpawnsOk(s.store, id);
  }
}
