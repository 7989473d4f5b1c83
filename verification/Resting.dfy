/**
 * Where a workflow rests while no run of it is in progress: it has ended, or waits unlocked, or is due,
 * or is due at the end of its backoff or sleep; and only a crash leaves its lock behind.
 */
module Resting {
  import opened Wrappers
  import opened Ids
  import opened Serialization
  import opened Events
  import opened Transactions
  import opened Workflows
  import opened Machine
  import opened Cluster
  import opened Family
  import opened Replay
  import opened Transparency
  import opened Progress

  // ----- The invariant -----

  /** A time in the future that a run at this command leaves behind: a backoff, or the recorded wake-up time. */
  ghost predicate DueLater(log: Log, n: nat, c: Command, at: Time) {
    var slept := First(log, AtStep(n, SleepingKind));
    c.Activity? || (c.Sleep? && slept.Some? && slept.value.wakeupAt == at)
  }

  predicate EndsAt(c: Command) {
    c.Return? || c.Raise? || c.Activity?
  }

  ghost predicate RestOk(code: Code, s: State, id: Id)
    requires id in s.store.rows
  {
    var row, n, c := s.store.rows[id], |s.Seen(id)|, FlowAt(code, s, id)(s.Seen(id));
    && (row.IsTerminal() ==> EndsAt(c))
    && (row.lockedBy.Some? ==> row.status == RUNNING)
    && (row.runAt <= s.now || (Idle(s, id) && DueLater(s.Log(id), n, c, row.runAt)))
  }

  ghost predicate RestInv(code: Code, s: State) {
    && ProgressInv(code, s)
    && forall id {:trigger RestOk(code, s, id)} :: id in s.store.rows ==> RestOk(code, s, id)
  }

  // ----- Rows that others touch -----

  lemma CommitBystanderRow(s: Store, now: Time, lockDuration: Time, tx: Tx, id: Id)
    requires Valid(s, tx) && s.Has(id)
    requires tx.MarkWaiting? || tx.Reschedule? || tx.Finish? ==> tx.id != id
    requires tx.ClaimWorkflow? && tx.id == id ==> s.rows[id].status == RUNNING && s.rows[id].runAt <= now
    ensures var t := Commit(s, now, lockDuration, tx);
      && id in t.rows
      && (t.rows[id].status == s.rows[id].status || t.rows[id].status == RUNNING)
      && (t.rows[id].lockedBy == s.rows[id].lockedBy || t.rows[id].status == RUNNING)
      && (t.rows[id].runAt == s.rows[id].runAt || t.rows[id].runAt == now)
      && (tx.ClaimWorkflow? && tx.id == id ==> t.rows[id].runAt <= now)
  {
    hide First;
  }

  lemma BystanderRests(code: Code, cfg: Config, s: State, a: Action, id: Id)
    requires RestInv(code, s) && Enabled(code, s, a) && id in s.store.rows && !Moves(s, a, id)
    ensures id in Apply(code, cfg, s, a).store.rows && RestOk(code, Apply(code, cfg, s, a), id)
  {
    hide First, Step, Commit, StoreInv, AuditAfter, FlowOf, WaitingOk, LockOk, WorkflowOk, RunOnTrace, GrewAside;
    assert RestOk(code, s, id);
    var t := Apply(code, cfg, s, a);
    RowsHaveLogs(code, s);
    BystanderAfter(code, cfg, s, a, id);
    ActionIsProper(code, s, a);
    hide RestInv;
    AsideScans(s.Log(id), t.Log(id), |s.Seen(id)|, SleepingKind);
    if a.Progress? {
      MoveShape(code, s, s.runs[a.rid], a.choice);
    }
    CommitBystanderRow(s.store, s.now, cfg.lockDuration, TxOf(code, s, a), id);
    hide Valid, Proper;
    if s.store.rows[id].runAt > s.now {
      StaysIdle(code, cfg, s, a, id);
    }
    hide Apply;
  }

  lemma StaysIdle(code: Code, cfg: Config, s: State, a: Action, id: Id)
    requires Enabled(code, s, a) && id in s.store.rows && Idle(s, id) && s.store.rows[id].runAt > s.now
    ensures Idle(Apply(code, cfg, s, a), id)
  {
    hide First, Step, AuditAfter, SeenAfter, Commit;
    if a.Progress? {
      MoveShape(code, s, s.runs[a.rid], a.choice);
    }
  }

  // ----- The row of the run that moves -----

  /** A body, or the handling of its failure, is at the end of the trace. */
  lemma BodyAtFrontier(code: Code, s: State, r: Run)
    requires FamilyInv(code, s) && RunOk(code, s.store, r) && RunOnTrace(code, s, r) && WorkflowOk(code, s, r.wf)
    requires r.pc.BodyRunning? || r.pc.Retrying?
    ensures r.obs == s.Seen(r.wf) && CommandOf(code, r).Activity?
    ensures FlowAt(code, s, r.wf)(r.obs) == CommandOf(code, r)
  {
    StartOfHistory(s.store, r);
    SnapshotAgrees(r.hist, s.Log(r.wf), r.At(), r.pc, CompletedKind);
    hide First, Count, Matches;
    UnsettledIsFrontier(code.classes, FlowAt(code, s, r.wf), s.Log(r.wf), s.Seen(r.wf), s.now, r);
  }

  /** A run ends for good only at a command that can end a workflow, and puts off only activities and sleeps. */
  lemma EndsAtFrontier(code: Code, s: State, r: Run, choice: Choice)
    requires FamilyInv(code, s) && RunOk(code, s.store, r) && RunOnTrace(code, s, r) && WorkflowOk(code, s, r.wf)
    requires CanStep(code, r, choice) && MoveOf(code, s, r, choice).next.None?
    ensures var tx := MoveOf(code, s, r, choice).tx; var c := FlowAt(code, s, r.wf)(s.Seen(r.wf));
      && (tx.Finish? ==> EndsAt(c))
      && (tx.Reschedule? ==> tx.runAt <= s.now || DueLater(s.Log(r.wf), |s.Seen(r.wf)|, c, tx.runAt))
  {
    EndingMoves(code, s, r, choice);
    if r.pc.Retrying? {
      BodyAtFrontier(code, s, r);
      hide First, Count, StoreInv, WorkflowInv, RunInv;
    } else if r.pc.Deciding? {
      DecidedAtFrontier(code, s, r);
    } else if r.pc.Parking? {
      StartOfHistory(s.store, r);
      ParkedAtFrontier(code.classes, FlowAt(code, s, r.wf), s.Log(r.wf), s.Seen(r.wf), s.now, r);
      hide First, Count, StoreInv, WorkflowInv, RunInv;
    } else {
      hide First, Count, StoreInv, WorkflowInv, RunInv, Lookup, ToJsonSafe;
    }
  }

  lemma ParkedAtFrontier(cs: Classes, w: Workflow, log: Log, seen: seq<Obs>, now: Time, r: Run)
    requires WorkflowInv(cs, w, log, seen, now) && RunInv(w, log, seen, r) && r.pc.Parking?
    ensures r.pc.until <= now || DueLater(log, |seen|, w(seen), r.pc.until)
  {
    hide First, Count, Explains, StepsFit;
    assert seen[..r.At()] == r.obs;
    if r.At() == |seen| {
      assert r.obs == seen;
    }
  }

  lemma DecidedAtFrontier(code: Code, s: State, r: Run)
    requires FamilyInv(code, s) && RunOk(code, s.store, r) && RunOnTrace(code, s, r) && WorkflowOk(code, s, r.wf)
    requires r.pc.Deciding? && Decide(code, s.now, r).next.None?
    ensures var tx := Decide(code, s.now, r).tx; var c := FlowAt(code, s, r.wf)(s.Seen(r.wf));
      && (tx.Finish? ==> EndsAt(c))
      && (tx.Reschedule? ==> tx.runAt <= s.now || DueLater(s.Log(r.wf), |s.Seen(r.wf)|, c, tx.runAt))
  {
    StartOfHistory(s.store, r);
    var w := FlowAt(code, s, r.wf);
    assert w(r.obs) == CommandOf(code, r);
    hide First, Count, StoreInv, FlowOf, FromJsonSafe, ToJsonSafe, SerializeArguments, ObsOf, ChildId;
    if w(r.obs).Return? || w(r.obs).Raise? {
      hide WorkflowInv, RunInv;
      EndingIsFrontier(code.classes, w, s.Log(r.wf), s.Seen(r.wf), s.now, r);
    } else if w(r.obs).Activity? {
      hide WorkflowInv, RunInv;
      if First(r.hist, AtStep(r.At(), ScheduledKind)).Some? {
        ScheduledMatches(code.classes, w, s.Log(r.wf), s.Seen(r.wf), s.now, r);
      }
    } else if w(r.obs).Sleep? {
      SleptAtFrontier(code.classes, w, s.Log(r.wf), s.Seen(r.wf), s.now, r);
    }
  }

  lemma EndingIsFrontier(cs: Classes, w: Workflow, log: Log, seen: seq<Obs>, now: Time, r: Run)
    requires WorkflowInv(cs, w, log, seen, now) && RunInv(w, log, seen, r) && !r.pc.Claimed?
    requires w(r.obs).Return? || w(r.obs).Raise?
    ensures r.obs == seen
  {
    UnsettledIsFrontier(cs, w, log, seen, now, r);
  }

  lemma SleptAtFrontier(cs: Classes, w: Workflow, log: Log, seen: seq<Obs>, now: Time, r: Run)
    requires WorkflowInv(cs, w, log, seen, now) && RunInv(w, log, seen, r) && r.pc.Deciding? && w(r.obs).Sleep?
    requires First(r.hist, AtStep(r.At(), SleepingKind)).Some?
    ensures var at := First(r.hist, AtStep(r.At(), SleepingKind)).value.wakeupAt;
      at <= now || DueLater(log, |seen|, w(seen), at)
  {
    FirstIsStable(r.hist, log, AtStep(r.At(), SleepingKind));
    hide First, Count, Explains, StepsFit;
    assert seen[..r.At()] == r.obs;
    if r.At() == |seen| {
      assert r.obs == seen;
    }
  }

  /** What its own run's move does to a row that is RUNNING, unless the move ends the run. */
  lemma CommitOwnRow(s: Store, now: Time, lockDuration: Time, tx: Tx, id: Id)
    requires Valid(s, tx) && s.Has(id)
    requires tx.Reschedule? || tx.MarkWaiting? || tx.Finish? || tx.WriteEvent? ==> tx.id == id
    requires !tx.CreateWorkflow? && !tx.ClaimWorkflow? && !tx.ExtendLock? && !tx.WriteSignal?
    requires tx.CreateChild? ==> tx.parent == id && tx.child != id
    requires tx.Finish? && tx.parentInfo.Some? ==> tx.parentInfo.value.workflowId != id
    ensures var t := Commit(s, now, lockDuration, tx);
      && id in t.rows
      && (!tx.Reschedule? ==> t.rows[id].runAt == s.rows[id].runAt)
      && (tx.Reschedule? ==> t.rows[id].status == s.rows[id].status)
      && (tx.Finish? ==> t.rows[id].lockedBy.None?)
  {
    hide First;
  }

  lemma MoverRests(code: Code, cfg: Config, s: State, a: Action)
    requires RestInv(code, s) && Enabled(code, s, a) && Permits(code, Exclusive(true), s, a) && a.Progress?
    ensures var id := s.runs[a.rid].wf;
      id in Apply(code, cfg, s, a).store.rows && RestOk(code, Apply(code, cfg, s, a), id)
  {
    hide First, Step, StoreInv, AuditAfter, Commit, WorkflowInv, RunInv, WaitingOk, LockOk, RestorableOutcome;
    var t, r := Apply(code, cfg, s, a), s.runs[a.rid];
    var id := r.wf;
    assert RunOk(code, s.store, r) && RunOnTrace(code, s, r) && WorkflowOk(code, s, id) && FamilyInv(code, s);
    assert OneRunEach(s) && RestOk(code, s, id) && !Idle(s, id);
    hide RestInv, ProgressInv;
    ApplyKeepsFamily(code, cfg, s, a);
    SameFlow(code, s, t, id);
    MoveShape(code, s, r, a.choice);
    OwnRowAfter(code, cfg, s, a);
    hide StartedOk, OriginOk;
    if MoveOf(code, s, r, a.choice).next.Some? {
      OthersKeepRunning(code, cfg, s, a, id);
      hide FamilyInv, RunOk, RunOnTrace, WorkflowOk, FlowAt;
    } else {
      EndingMoves(code, s, r, a.choice);
      EndingMoveReleases(code, cfg, s, a);
      OwnLogIsCommitted(code, s, a, cfg.lockDuration);
      EndsAtFrontier(code, s, r, a.choice);
      hide FamilyInv, RunOk, RunOnTrace, WorkflowOk, FlowAt;
      LeavesIdle(code, cfg, s, a);
    }
  }

  lemma OwnRowAfter(code: Code, cfg: Config, s: State, a: Action)
    requires FamilyInv(code, s) && Enabled(code, s, a) && a.Progress? && s.store.Has(s.runs[a.rid].wf)
    ensures var tx := TxOf(code, s, a); var t, id := Apply(code, cfg, s, a), s.runs[a.rid].wf;
      && id in t.store.rows
      && (!tx.Reschedule? ==> t.store.rows[id].runAt == s.store.rows[id].runAt)
      && (tx.Reschedule? ==> t.store.rows[id].status == s.store.rows[id].status)
      && (tx.Finish? ==> t.store.rows[id].lockedBy.None?)
  {
    hide First, Step, StoreInv, AuditAfter, SeenAfter, Commit, ChildId;
    var r := s.runs[a.rid];
    assert RunOk(code, s.store, r);
    MovesAreProper(code, s, r, a.choice);
    if s.store.rows[r.wf].parent.Some? {
      ParentIsAnother(s.store, r.wf);
    }
    ChildIdIsLonger(r.wf, r.At());
    MoveShape(code, s, r, a.choice);
    hide FamilyInv, RunOk;
    CommitOwnRow(s.store, s.now, cfg.lockDuration, TxOf(code, s, a), r.wf);
  }

  /** The only run of a workflow has ended. */
  lemma LeavesIdle(code: Code, cfg: Config, s: State, a: Action)
    requires OneRunEach(s) && Enabled(code, s, a) && a.Progress? && MoveOf(code, s, s.runs[a.rid], a.choice).next.None?
    ensures Idle(Apply(code, cfg, s, a), s.runs[a.rid].wf)
    ensures Apply(code, cfg, s, a).Seen(s.runs[a.rid].wf) == s.Seen(s.runs[a.rid].wf)
  {
    hide First, Step, Commit, AuditAfter;
  }

  // ----- Preservation -----

  lemma NewcomerRests(code: Code, cfg: Config, s: State, a: Action, id: Id)
    requires ReplayInv(code, s) && Enabled(code, s, a)
    requires id !in s.store.rows && id in Apply(code, cfg, s, a).store.rows
    ensures RestOk(code, Apply(code, cfg, s, a), id)
  {
    hide First, Step, Commit, AuditAfter, SeenAfter, StoreInv, WorkflowOk, RunOnTrace, FlowAt;
    RowsHaveLogs(code, s);
    ActionIsProper(code, s, a);
    hide ReplayInv, FamilyInv, Proper;
    CommitNewRow(s.store, s.now, cfg.lockDuration, TxOf(code, s, a), id);
  }

  lemma CommitNewRow(s: Store, now: Time, lockDuration: Time, tx: Tx, id: Id)
    requires Valid(s, tx) && id !in s.rows && id in Commit(s, now, lockDuration, tx).rows && s.rows.Keys == s.logs.Keys
    ensures var row := Commit(s, now, lockDuration, tx).rows[id];
      row.status == RUNNING && row.lockedBy.None? && row.runAt == now && tx != NoTx
  {
    hide First;
  }

  lemma ApplyKeepsRest(code: Code, cfg: Config, s: State, a: Action)
    requires RestInv(code, s) && Enabled(code, s, a) && Permits(code, Exclusive(true), s, a)
    ensures RestInv(code, Apply(code, cfg, s, a))
  {
    hide Apply, Enabled, Permits, ProgressInv, RestOk, Moves;
    assert ReplayInv(code, s) by {
      ProgressReplays(code, s);
    }
    ApplyKeepsProgress(code, cfg, s, a);
    var t := Apply(code, cfg, s, a);
    forall id | id in t.store.rows
      ensures RestOk(code, t, id)
    {
      if id !in s.store.rows {
        NewcomerRests(code, cfg, s, a, id);
      } else if Moves(s, a, id) {
        MoverOf(s, a, id);
        MoverRests(code, cfg, s, a);
      } else {
        BystanderRests(code, cfg, s, a, id);
      }
    }
  }

  lemma ProgressReplays(code: Code, s: State)
    requires ProgressInv(code, s)
    ensures ReplayInv(code, s)
  {
  }

  lemma MoverOf(s: State, a: Action, id: Id)
    requires Moves(s, a, id)
    ensures a.Progress? && a.rid in s.runs && s.runs[a.rid].wf == id
  {
  }

  lemma InitRest(code: Code, now: Time)
    ensures RestInv(code, Init(now))
  {
    InitProgress(code, now);
  }

  lemma {:induction false} RestHolds(code: Code, cfg: Config, s: State, acts: seq<Action>)
    requires RestInv(code, s) && Legal(code, cfg, Exclusive(true), s, acts)
    ensures RestInv(code, Final(code, cfg, Exclusive(true), s, acts))
    decreases |acts|
  {
    hide Apply, Enabled, Permits, RestInv;
    if acts != [] {
      ApplyKeepsRest(code, cfg, s, acts[0]);
      RestHolds(code, cfg, Apply(code, cfg, s, acts[0]), acts[1..]);
    }
  }

  lemma ReachableRest(code: Code, cfg: Config, s: State)
    requires Reachable(code, cfg, Exclusive(true), s)
    ensures RestInv(code, s)
  {
    hide RestInv, Leads, Legal, Final;
    var now, acts := ReachableBy(code, cfg, Exclusive(true), s);
    InitRest(code, now);
    RestHolds(code, cfg, Init(now), acts);
  }

  // ----- Main results -----

  /** How a row stands that no run is at work on. */
  ghost predicate AtRest(row: Row, log: Log, n: nat, c: Command, now: Time) {
    match row.status
    case WAITING => row.lockedBy.None? && Waits(c) && First(log, Settles(n, c)).None?
    case RUNNING => (row.lockedBy.Some? ==> row.lockedUntil.Some?) && (row.runAt <= now || DueLater(log, n, c, row.runAt))
    case _ => row.lockedBy.None? && EndsAt(c)
  }

  /**
   * No workflow is forgotten: while no run of it is in progress, a workflow has ended, at a command
   * that can end it; or it waits, unlocked, for an event that is not there; or it is due, now, or at
   * the end of its backoff or of its recorded sleep, unless a lock with an expiry is in the way.
   */
  lemma IdleRowsAreAtRest(code: Code, cfg: Config, s: State, id: Id)
    requires Reachable(code, cfg, Exclusive(true), s) && id in s.store.rows && Idle(s, id)
    ensures AtRest(s.store.rows[id], s.Log(id), |s.Seen(id)|, FlowAt(code, s, id)(s.Seen(id)), s.now)
  {
    hide Reachable, FlowAt, First, ReplayInv;
    ReachableRest(code, cfg, s);
    RestIsAtRest(code, s, id);
  }

  lemma RestIsAtRest(code: Code, s: State, id: Id)
    requires RestInv(code, s) && id in s.store.rows && Idle(s, id)
    ensures AtRest(s.store.rows[id], s.Log(id), |s.Seen(id)|, FlowAt(code, s, id)(s.Seen(id)), s.now)
  {
    hide FlowAt, First, ReplayInv, DueLater;
    assert WaitingOk(code, s, id) && LockOk(s.store.rows[id]) && RestOk(code, s, id);
  }

  /** Nothing but a crash of its run leaves a workflow locked with no run in progress. */
  lemma OnlyCrashesLeaveLocks(code: Code, cfg: Config, restorable: bool, s: State, a: Action, id: Id)
    requires Reachable(code, cfg, Exclusive(restorable), s)
    requires Enabled(code, s, a) && Permits(code, Exclusive(restorable), s, a)
    requires var t := Apply(code, cfg, s, a); id in t.store.rows && Idle(t, id) && t.store.rows[id].lockedBy.Some?
    ensures (id in s.store.rows && Idle(s, id) && s.store.rows[id].lockedBy.Some?)
         || (a.Crash? && s.runs[a.rid].wf == id)
  {
    hide Step, First, AuditAfter, SeenAfter, Commit, FamilyInv, RestorableOutcome, Leads;
    ReachableFamily(code, cfg, Exclusive(restorable), s);
    RowsHaveLogs(code, s);
    hide Reachable;
    ActionIsProper(code, s, a);
    var t := Apply(code, cfg, s, a);
    if id !in s.store.rows {
      CommitNewRow(s.store, s.now, cfg.lockDuration, TxOf(code, s, a), id);
    } else if Moves(s, a, id) {
      MoveShape(code, s, s.runs[a.rid], a.choice);
      EndedByMove(code, cfg, s, a, id);
      EndingMoveReleases(code, cfg, s, a);
    } else {
      if a.Progress? {
        MoveShape(code, s, s.runs[a.rid], a.choice);
      }
      CommitLocks(s.store, s.now, cfg.lockDuration, TxOf(code, s, a), id);
      IdleBefore(code, cfg, s, a, id);
    }
  }

  lemma EndedByMove(code: Code, cfg: Config, s: State, a: Action, id: Id)
    requires Enabled(code, s, a) && Moves(s, a, id) && Idle(Apply(code, cfg, s, a), id)
    ensures a.rid !in Apply(code, cfg, s, a).runs
  {
    hide Apply, Enabled;
    RunsKeepTheirWorkflow(code, cfg, s, a);
  }

  lemma RunsKeepTheirWorkflow(code: Code, cfg: Config, s: State, a: Action)
    requires Enabled(code, s, a)
    ensures var t := Apply(code, cfg, s, a);
      && (forall k :: k in t.runs && k in s.runs ==> t.runs[k].wf == s.runs[k].wf)
      && (forall k :: k in s.runs && k !in t.runs ==> (a.Progress? || a.Crash?) && a.rid == k)
      && (a.Claim? ==> a.rid in t.runs && t.runs[a.rid].wf == a.id)
  {
    hide Step, First, AuditAfter, SeenAfter, Commit;
    if a.Progress? {
      MoveShape(code, s, s.runs[a.rid], a.choice);
    }
  }

  lemma CommitLocks(s: Store, now: Time, lockDuration: Time, tx: Tx, id: Id)
    requires Valid(s, tx) && id in s.rows && id in Commit(s, now, lockDuration, tx).rows
    ensures Commit(s, now, lockDuration, tx).rows[id].lockedBy.Some? ==>
      s.rows[id].lockedBy.Some? || (tx.ClaimWorkflow? && tx.id == id)
  {
    hide First;
  }

  /** Without a move of its own run or a crash, a workflow that is idle was idle, and was not claimed. */
  lemma IdleBefore(code: Code, cfg: Config, s: State, a: Action, id: Id)
    requires Enabled(code, s, a) && !Moves(s, a, id) && Idle(Apply(code, cfg, s, a), id)
    ensures Idle(s, id) || (a.Crash? && s.runs[a.rid].wf == id)
    ensures !(a.Claim? && a.id == id)
  {
    RunsKeepTheirWorkflow(code, cfg, s, a);
    hide Apply, Enabled;
  }
}
