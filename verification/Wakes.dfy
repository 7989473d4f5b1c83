/**
 * Spurious wakes. A workflow suspended at a recorded sleep or wait may be woken any number of times
 * by things it does not wait for; each time it replays, writes nothing, and suspends again.
 */
module Wakes {
  import opened Wrappers
  import opened Ids
  import opened Serialization
  import opened Events
  import opened Transactions
  import opened Workflows
  import opened Machine
  import opened Cluster
  import opened Family
  import opened Replay
  import opened Transparency
  import opened Progress
  import Resting

  /** The event or marker that records the suspension at a command has been written. */
  ghost predicate Recorded(log: Log, n: nat, c: Command) {
    || (c.Sleep? && First(log, AtStep(n, SleepingKind)).Some?)
    || (Waits(c) && First(log, Marker(c)).Some?)
  }

  /** The suspension is not over: the sleep has not run out, or the awaited event is absent. */
  ghost predicate Unsatisfied(log: Log, n: nat, c: Command, now: Time) {
    || (c.Sleep? && First(log, AtStep(n, SleepingKind)).Some? && now < First(log, AtStep(n, SleepingKind)).value.wakeupAt)
    || (Waits(c) && First(log, Settles(n, c)).None?)
  }

  /** What is suspended later was suspended earlier. */
  lemma UnsatisfiedEarlier(log: Log, more: Log, n: nat, c: Command, now: Time, later: Time)
    requires log <= more && now <= later && Unsatisfied(more, n, c, later) && Recorded(log, n, c)
    ensures Unsatisfied(log, n, c, now)
  {
    if c.Sleep? {
      FirstIsStable(log, more, AtStep(n, SleepingKind));
    } else if First(log, Settles(n, c)).Some? {
      FirstIsStable(log, more, Settles(n, c));
    }
  }

  /**
   * Workflow `id` is suspended at the end of its trace, `base` records it and the whole trace, and
   * every run in progress has a snapshot at least that recent.
   */
  ghost predicate Suspended(code: Code, s: State, id: Id, base: Log, seen: seq<Obs>) {
    && ProgressInv(code, s) && id in s.store.rows
    && s.Seen(id) == seen && base <= s.Log(id)
    && var w := FlowAt(code, s, id);
      && Recorded(base, |seen|, w(seen)) && Unsatisfied(s.Log(id), |seen|, w(seen), s.now)
      && Explains(code.classes, w, base, seen)
      && forall rid {:trigger s.runs[rid]} :: rid in s.runs && s.runs[rid].wf == id && !s.runs[rid].pc.Claimed? ==>
        base <= s.runs[rid].hist
  }

  /** Where a run of a suspended workflow can be. */
  lemma SuspendedRun(code: Code, s: State, w: Workflow, base: Log, seen: seq<Obs>, r: Run)
    requires RunOk(code, s.store, r) && w == FlowOfRun(code, r) && !r.pc.Claimed?
    requires WorkflowInv(code.classes, w, s.Log(r.wf), seen, s.now) && RunInv(w, s.Log(r.wf), seen, r)
    requires base <= r.hist && Recorded(base, |seen|, w(seen)) && Explains(code.classes, w, base, seen)
    requires Unsatisfied(s.Log(r.wf), |seen|, w(seen), s.now)
    ensures r.obs == seen ==> r.pc.Deciding? || r.pc.Marking?
    ensures r.obs == seen ==> Recorded(r.hist, |seen|, w(seen)) && Unsatisfied(r.hist, |seen|, w(seen), s.now)
    ensures r.obs != seen ==> r.pc.Deciding? && |r.obs| < |seen|
    ensures r.obs != seen ==> Lookup(code.classes, r.hist, r.At(), w(r.obs)) == Some(seen[r.At()])
    ensures r.obs != seen && w(r.obs).Sleep? ==>
      First(r.hist, AtStep(r.At(), SleepingKind)).Some? && First(r.hist, AtStep(r.At(), SleepingKind)).value.wakeupAt <= s.now
  {
    var n, c := |seen|, w(seen);
    assert r.obs == seen[..r.At()];
    if r.obs == seen {
      if c.Sleep? {
        FirstIsStable(base, r.hist, AtStep(n, SleepingKind));
        FirstIsStable(r.hist, s.Log(r.wf), AtStep(n, SleepingKind));
      } else {
        FirstIsStable(base, r.hist, Marker(c));
        if First(r.hist, Settles(n, c)).Some? {
          FirstIsStable(r.hist, s.Log(r.wf), Settles(n, c));
        }
      }
      hide First, Count, Explains, Matches;
    } else {
      ExplainsIsMonotone(code.classes, w, base, r.hist, seen);
      assert Lookup(code.classes, r.hist, r.At(), w(seen[..r.At()])) == Some(seen[r.At()]);
      if w(r.obs).Sleep? {
        FirstIsStable(r.hist, s.Log(r.wf), AtStep(r.At(), SleepingKind));
      }
      hide First, Count, Explains, Matches;
    }
  }

  /** The moves such a run makes: it replays silently, and at the end suspends again. */
  lemma SuspendedMove(code: Code, s: State, w: Workflow, seen: seq<Obs>, r: Run, choice: Choice)
    requires CanStep(code, r, choice) && w == FlowOfRun(code, r)
    requires r.obs == seen ==>
      && (r.pc.Deciding? || r.pc.Marking?)
      && Recorded(r.hist, |seen|, w(seen)) && Unsatisfied(r.hist, |seen|, w(seen), s.now)
      && Unsatisfied(s.Log(r.wf), |seen|, w(seen), s.now)
    requires r.obs != seen ==>
      && r.pc.Deciding? && |r.obs| < |seen| && Lookup(code.classes, r.hist, r.At(), w(r.obs)) == Some(seen[r.At()])
      && (w(r.obs).Sleep? ==>
            First(r.hist, AtStep(r.At(), SleepingKind)).Some? && First(r.hist, AtStep(r.At(), SleepingKind)).value.wakeupAt <= s.now)
    ensures var m := MoveOf(code, s, r, choice);
      && (m.next.Some? ==> m.tx == NoTx && m.next.value.hist == r.hist && |m.next.value.obs| <= |seen| && !m.next.value.pc.Claimed?)
      && (m.next.None? ==>
            if w(seen).Sleep? then m.tx == Reschedule(r.wf, First(r.hist, AtStep(|seen|, SleepingKind)).value.wakeupAt)
            else Waits(w(seen)) && m.tx == MarkWaiting(r.wf, Settles(|seen|, w(seen))))
  {
    hide First, Count, FromJsonSafe, ToJsonSafe, SerializeArguments, ObsOf;
  }

  /** The suspended state a run leaves behind: unlocked, and due at the recorded wake-up time or waiting. */
  ghost predicate AsleepAgain(row: Row, log: Log, n: nat, c: Command) {
    && row.lockedBy.None?
    && (if c.Sleep? then
          First(log, AtStep(n, SleepingKind)).Some? && row.runAt == First(log, AtStep(n, SleepingKind)).value.wakeupAt
        else row.status == WAITING)
  }

  /** One move of a run of a suspended workflow: nothing is written, and if it ends the row is asleep again. */
  lemma SuspendedStep(code: Code, cfg: Config, s: State, a: Action, id: Id, base: Log, seen: seq<Obs>)
    requires Suspended(code, s, id, base, seen) && Enabled(code, s, a) && Permits(code, Exclusive(true), s, a)
    requires Moves(s, a, id)
    ensures var t := Apply(code, cfg, s, a);
      && id in t.store.rows && t.Log(id) == s.Log(id) && t.Seen(id) == seen
      && (a.rid in t.runs ==> base <= t.runs[a.rid].hist || t.runs[a.rid].pc.Claimed?)
      && (a.rid !in t.runs ==> AsleepAgain(t.store.rows[id], t.Log(id), |seen|, FlowAt(code, s, id)(seen)))
  {
    var t := Apply(code, cfg, s, a);
    var r := s.runs[a.rid];
    assert RunOk(code, s.store, r) && RunOnTrace(code, s, r) && WorkflowOk(code, s, id);
    OwnLogIsCommitted(code, s, a, cfg.lockDuration);
    MoveShape(code, s, r, a.choice);
    SameFlowNow(code, cfg, s, a, id);
    if !r.pc.Claimed? {
      StartOfHistory(s.store, r);
      var w := FlowAt(code, s, id);
      hide First, StoreInv, Explains, WorkflowInv, RunInv, Recorded, Unsatisfied, ProgressInv, Step, AuditAfter;
      hide Commit;
      SuspendedRun(code, s, w, base, seen, r);
      SuspendedMove(code, s, w, seen, r, a.choice);
      if MoveOf(code, s, r, a.choice).next.None? {
        EndingMoveReleases(code, cfg, s, a);
        if w(seen).Sleep? {
          RecordInHistory(base, r.hist, s.Log(id), |seen|, w(seen));
        }
      }
    } else {
      hide First, StoreInv, Explains, WorkflowInv, RunInv, Recorded, Unsatisfied, ProgressInv, AuditAfter, Commit;
    }
  }

  lemma RecordInHistory(base: Log, hist: Log, log: Log, n: nat, c: Command)
    requires base <= hist <= log && Recorded(base, n, c) && c.Sleep?
    ensures First(log, AtStep(n, SleepingKind)).Some?
    ensures First(log, AtStep(n, SleepingKind)) == First(hist, AtStep(n, SleepingKind))
  {
    FirstIsStable(base, hist, AtStep(n, SleepingKind));
    FirstIsStable(hist, log, AtStep(n, SleepingKind));
  }

  lemma SameFlowNow(code: Code, cfg: Config, s: State, a: Action, id: Id)
    requires FamilyInv(code, s) && Enabled(code, s, a) && id in s.store.rows
    ensures id in Apply(code, cfg, s, a).store.rows && FlowAt(code, Apply(code, cfg, s, a), id) == FlowAt(code, s, id)
    ensures s.Log(id) <= Apply(code, cfg, s, a).Log(id)
  {
    ApplyKeepsFamily(code, cfg, s, a);
    SameFlow(code, s, Apply(code, cfg, s, a), id);
  }

  /** Signals and completion notices are all that other parties write into a log. */
  predicate FromOutside(e: Event) {
    e.Signal? || e.ChildSignal?
  }

  ghost predicate GrewFromOutside(log: Log, more: Log) {
    log <= more && forall p {:trigger more[p]} :: |log| <= p < |more| ==> FromOutside(more[p])
  }

  lemma CommitFromOutside(s: Store, now: Time, lockDuration: Time, tx: Tx, id: Id)
    requires Valid(s, tx) && s.Has(id)
    requires tx.WriteEvent? || tx.Finish? ==> tx.id != id
    requires tx.CreateChild? ==> tx.parent != id
    ensures GrewFromOutside(s.Log(id), Commit(s, now, lockDuration, tx).Log(id))
  {
    hide First;
  }

  lemma OthersWriteFromOutside(code: Code, cfg: Config, s: State, a: Action, id: Id)
    requires FamilyInv(code, s) && Enabled(code, s, a) && id in s.store.rows && !Moves(s, a, id)
    ensures GrewFromOutside(s.Log(id), Apply(code, cfg, s, a).Log(id))
  {
    assert s.store.Has(id);
    if a.Progress? {
      MoveShape(code, s, s.runs[a.rid], a.choice);
    }
    hide Step, First, Count, ChildId, RootId, StoreInv, AuditAfter, SeenAfter, GrewFromOutside, Commit;
    CommitFromOutside(s.store, s.now, cfg.lockDuration, TxOf(code, s, a), id);
  }

  lemma GrewTwice(a: Log, b: Log, c: Log)
    requires GrewFromOutside(a, b) && GrewFromOutside(b, c)
    ensures GrewFromOutside(a, c)
  {
  }

  /** Snapshots stay at least as recent as the record: a run claimed later loads a longer log. */
  lemma SnapshotsStayRecent(code: Code, cfg: Config, s: State, a: Action, id: Id, base: Log, rid: RunId)
    requires Enabled(code, s, a) && base <= s.Log(id)
    requires forall k {:trigger s.runs[k]} :: k in s.runs && s.runs[k].wf == id && !s.runs[k].pc.Claimed? ==> base <= s.runs[k].hist
    requires Moves(s, a, id) && a.rid in Apply(code, cfg, s, a).runs ==>
      base <= Apply(code, cfg, s, a).runs[a.rid].hist || Apply(code, cfg, s, a).runs[a.rid].pc.Claimed?
    requires rid in Apply(code, cfg, s, a).runs
    ensures var r := Apply(code, cfg, s, a).runs[rid]; r.wf == id && !r.pc.Claimed? ==> base <= r.hist
  {
    if a.Progress? {
      MoveShape(code, s, s.runs[a.rid], a.choice);
    }
    hide Step, First, Commit, AuditAfter, SeenAfter;
    if rid in s.runs {
      assert s.runs[rid].wf == id && !s.runs[rid].pc.Claimed? ==> base <= s.runs[rid].hist;
    }
  }

  lemma StaysSuspended(code: Code, cfg: Config, s: State, a: Action, id: Id, base: Log, seen: seq<Obs>)
    requires Suspended(code, s, id, base, seen) && Enabled(code, s, a) && Permits(code, Exclusive(true), s, a)
    requires var t := Apply(code, cfg, s, a);
      id in t.store.rows ==> Unsatisfied(t.Log(id), |seen|, FlowAt(code, t, id)(seen), t.now)
    ensures Suspended(code, Apply(code, cfg, s, a), id, base, seen)
    ensures GrewFromOutside(s.Log(id), Apply(code, cfg, s, a).Log(id))
  {
    var t := Apply(code, cfg, s, a);
    ApplyKeepsProgress(code, cfg, s, a);
    SameFlowNow(code, cfg, s, a, id);
    if Moves(s, a, id) {
      SuspendedStep(code, cfg, s, a, id, base, seen);
    } else {
      BystanderAfter(code, cfg, s, a, id);
      OthersWriteFromOutside(code, cfg, s, a, id);
    }
    hide First, StoreInv, ProgressInv, Recorded, Unsatisfied, Explains, Apply, Enabled, FlowAt;
    forall rid | rid in t.runs
      ensures t.runs[rid].wf == id && !t.runs[rid].pc.Claimed? ==> base <= t.runs[rid].hist
    {
      SnapshotsStayRecent(code, cfg, s, a, id, base, rid);
    }
  }

  /** As long as the suspension is not over, it lasts. */
  lemma {:induction false} SuspensionHolds(
    code: Code, cfg: Config, s: State, acts: seq<Action>, id: Id, base: Log, seen: seq<Obs>)
    requires Suspended(code, s, id, base, seen) && Legal(code, cfg, Exclusive(true), s, acts)
    requires var t := Final(code, cfg, Exclusive(true), s, acts);
      id in t.store.rows ==> Unsatisfied(t.Log(id), |seen|, FlowAt(code, t, id)(seen), t.now)
    ensures var t := Final(code, cfg, Exclusive(true), s, acts);
      Suspended(code, t, id, base, seen) && GrewFromOutside(s.Log(id), t.Log(id)) && s.now <= t.now
    decreases |acts|
  {
    if acts != [] {
      var u := Apply(code, cfg, s, acts[0]);
      var t := Final(code, cfg, Exclusive(true), u, acts[1..]);
      assert FamilyInv(code, s);
      SameFlowNow(code, cfg, s, acts[0], id);
      ApplyKeepsFamily(code, cfg, s, acts[0]);
      FamilyHolds(code, cfg, Exclusive(true), u, acts[1..]);
      SameFlow(code, u, t, id);
      ClockRuns(code, cfg, u, acts[1..]);
      var c := FlowAt(code, s, id)(seen);
      RecordedLater(base, s.Log(id), u.Log(id), |seen|, c);
      hide Apply, Enabled, Permits, Suspended, Unsatisfied, Recorded, FlowAt, FamilyInv, Grows;
      UnsatisfiedEarlier(u.Log(id), t.Log(id), |seen|, c, u.now, t.now);
      StaysSuspended(code, cfg, s, acts[0], id, base, seen);
      SuspensionHolds(code, cfg, u, acts[1..], id, base, seen);
      GrewTwice(s.Log(id), u.Log(id), t.Log(id));
      ClockStep(code, cfg, s, acts[0]);
    }
  }

  lemma ClockStep(code: Code, cfg: Config, s: State, a: Action)
    requires Enabled(code, s, a)
    ensures s.now <= Apply(code, cfg, s, a).now
  {
    hide Step, Commit;
  }

  lemma RecordedLater(base: Log, log: Log, more: Log, n: nat, c: Command)
    requires base <= log <= more && Recorded(base, n, c)
    ensures Recorded(more, n, c)
  {
    if c.Sleep? {
      FirstIsStable(base, more, AtStep(n, SleepingKind));
    } else {
      FirstIsStable(base, more, Marker(c));
    }
  }

  lemma {:induction false} ClockRuns(code: Code, cfg: Config, s: State, acts: seq<Action>)
    requires Legal(code, cfg, Exclusive(true), s, acts)
    ensures s.now <= Final(code, cfg, Exclusive(true), s, acts).now
    decreases |acts|
  {
    hide Apply, Enabled, Permits;
    if acts != [] {
      ClockStep(code, cfg, s, acts[0]);
      ClockRuns(code, cfg, Apply(code, cfg, s, acts[0]), acts[1..]);
    }
  }

  /** Such a moment is any at which the workflow has no run and its frontier is recorded and open. */
  lemma IdleFrontierIsSuspended(code: Code, s: State, id: Id)
    requires ProgressInv(code, s) && id in s.store.rows && Idle(s, id)
    requires var c := FlowAt(code, s, id)(s.Seen(id));
      Recorded(s.Log(id), |s.Seen(id)|, c) && Unsatisfied(s.Log(id), |s.Seen(id)|, c, s.now)
    ensures Suspended(code, s, id, s.Log(id), s.Seen(id))
  {
    hide First, FlowOf;
    assert WorkflowOk(code, s, id);
  }

  /**
   * The row of a suspended workflow that no run is at work on: waiting and unlocked, or due at the
   * recorded wake-up time, or woken and due. A lock is in the way only until it expires.
   */
  ghost predicate AsleepOrWoken(row: Row, log: Log, n: nat, c: Command, now: Time) {
    var slept := First(log, AtStep(n, SleepingKind));
    match row.status
    case WAITING => row.lockedBy.None? && Waits(c)
    case RUNNING =>
      && (row.lockedBy.Some? ==> row.lockedUntil.Some?)
      && (row.runAt <= now || (c.Sleep? && slept.Some? && row.runAt == slept.value.wakeupAt))
    case _ => false
  }

  lemma RestIsSleep(row: Row, log: Log, n: nat, c: Command, now: Time)
    requires Resting.AtRest(row, log, n, c, now) && Unsatisfied(log, n, c, now)
    ensures AsleepOrWoken(row, log, n, c, now)
  {
    hide First;
  }

  /**
   * From a moment when a recorded suspension has no run in progress, and for as long as it is not over,
   * any number of wakes, claims, crashes and runs leave nothing in the log but the signals and
   * completion notices that came from outside, and add nothing to the trace; and whenever no run is in
   * progress the workflow is asleep again, or woken and due. That a lock can be in the way then is the
   * work of a crash alone (`Resting.OnlyCrashesLeaveLocks`).
   */
  lemma SpuriousWakesStutter(code: Code, cfg: Config, s: State, t: State, id: Id)
    requires Reachable(code, cfg, Exclusive(true), s) && Leads(code, cfg, Exclusive(true), s, t)
    requires id in s.store.rows && Idle(s, id)
    requires Recorded(s.Log(id), |s.Seen(id)|, FlowAt(code, s, id)(s.Seen(id)))
    requires Unsatisfied(t.Log(id), |s.Seen(id)|, FlowAt(code, s, id)(s.Seen(id)), t.now)
    ensures id in t.store.rows && t.Seen(id) == s.Seen(id) && GrewFromOutside(s.Log(id), t.Log(id))
    ensures Idle(t, id) ==>
      AsleepOrWoken(t.store.rows[id], t.Log(id), |s.Seen(id)|, FlowAt(code, s, id)(s.Seen(id)), t.now)
  {
    hide Leads, Legal, Final, ProgressInv, Recorded, Unsatisfied, FlowAt, FamilyInv, Apply, Resting.RestInv;
    hide Resting.AtRest, AsleepOrWoken;
    ReachableProgress(code, cfg, s);
    ReachableFamily(code, cfg, Exclusive(true), s);
    Resting.ReachableRest(code, cfg, s);
    hide Reachable;
    var acts := LeadsBy(code, cfg, Exclusive(true), s, t);
    FamilyHolds(code, cfg, Exclusive(true), s, acts);
    Resting.RestHolds(code, cfg, s, acts);
    SameFlow(code, s, t, id);
    ClockRuns(code, cfg, s, acts);
    RowsHaveLogs(code, s);
    var c := FlowAt(code, s, id)(s.Seen(id));
    UnsatisfiedEarlier(s.Log(id), t.Log(id), |s.Seen(id)|, c, s.now, t.now);
    IdleFrontierIsSuspended(code, s, id);
    hide Suspended, Grows;
    SuspensionHolds(code, cfg, s, acts, id, s.Log(id), s.Seen(id));
    SuspendedSees(code, t, id, s.Log(id), s.Seen(id));
    hide Explains;
    if Idle(t, id) {
      Resting.RestIsAtRest(code, t, id);
      RestIsSleep(t.store.rows[id], t.Log(id), |s.Seen(id)|, c, t.now);
    }
  }

  lemma SuspendedSees(code: Code, s: State, id: Id, base: Log, seen: seq<Obs>)
    requires Suspended(code, s, id, base, seen)
    ensures id in s.store.rows && s.Seen(id) == seen
  {
    hide ProgressInv, Recorded, Unsatisfied;
  }
}
