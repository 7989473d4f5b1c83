/**
 * Retry accounting over whole behaviours: attempt numbers, attempts per completion, bodies started
 * against outcomes recorded, and how often a step can fail at all.
 */
module Retries {
  import opened Wrappers
  import opened Ids
  import opened Serialization
  import opened Events
  import opened Transactions
  import opened Workflows
  import opened Machine
  import opened Cluster
  import opened Family
  import opened Replay
  import opened Transparency
  import opened Recording

  // ----- Attempt numbers -----

  /** FAILED events are numbered 0, 1, 2, ... per step; COMPLETED comes last and counts them all. */
  ghost predicate Numbered(log: Log) {
    forall p {:trigger log[p]} :: 0 <= p < |log| ==>
      && (log[p].Failed? ==>
            log[p].attempt == Count(log[..p], FailedAt(log[p].step)) && Count(log[..p], AtStep(log[p].step, CompletedKind)) == 0)
      && (log[p].Completed? ==> log[p].attemptsTotal == Count(log[..p], FailedAt(log[p].step)) + 1)
  }

  lemma NumberedAppend(log: Log, e: Event)
    requires Numbered(log)
    requires e.Failed? ==> e.attempt == Count(log, FailedAt(e.step)) && Count(log, AtStep(e.step, CompletedKind)) == 0
    requires e.Completed? ==> e.attemptsTotal == Count(log, FailedAt(e.step)) + 1
    ensures Numbered(log + [e])
  {
    hide Count;
    var more := log + [e];
    forall p | 0 <= p < |more|
      ensures more[p].Failed? ==> more[p].attempt == Count(more[..p], FailedAt(more[p].step))
      ensures more[p].Failed? ==> Count(more[..p], AtStep(more[p].step, CompletedKind)) == 0
      ensures more[p].Completed? ==> more[p].attemptsTotal == Count(more[..p], FailedAt(more[p].step)) + 1
    {
      if p < |log| {
        assert more[p] == log[p] && more[..p] == log[..p];
      } else {
        assert more[..p] == log;
      }
    }
  }

  lemma {:induction false} NumberedAside(log: Log, more: Log)
    requires Numbered(log) && GrewAside(log, more)
    ensures Numbered(more)
    decreases |more|
  {
    if |log| < |more| {
      var init, e := more[..|more| - 1], more[|more| - 1];
      NumberedAside(log, init);
      assert more == init + [e] && StepIndex(more[|more| - 1]) < 0;
      NumberedAppend(init, e);
    } else {
      assert log == more;
    }
  }

  /** Every FAILED event was counted before the COMPLETED one, so its total is final. */
  lemma TotalIsFinal(log: Log, p: nat, i: nat)
    requires Numbered(log) && p < |log| && log[p].Completed? && log[p].step == i
    ensures log[p].attemptsTotal == Count(log, FailedAt(i)) + 1
  {
    var before := log[..p];
    forall k | p <= k < |log|
      ensures !Matches(log[k], FailedAt(i))
    {
      if log[k].Failed? && log[k].step == i {
        assert log[..k][p] == log[p] && log[p] in log[..k];
        ScanIsExact(log[..k], AtStep(i, CompletedKind));
      }
    }
    ScanIgnores(before, log, FailedAt(i));
  }

  /** The log holds a FAILED event of step `i` that carries attempt `a`. */
  ghost predicate HasAttempt(log: Log, i: nat, a: nat) {
    exists p :: 0 <= p < |log| && log[p].Failed? && log[p].step == i && log[p].attempt == a
  }

  /** The a-th FAILED event of a step carries attempt a. */
  lemma {:induction false} AttemptsInOrder(log: Log, i: nat, a: nat)
    requires Numbered(log) && a < Count(log, FailedAt(i))
    ensures HasAttempt(log, i, a)
  {
    var n := |log| - 1;
    var init := log[..n];
    assert forall p :: 0 <= p < n ==> init[p] == log[p] && init[..p] == log[..p];
    if a < Count(init, FailedAt(i)) {
      AttemptsInOrder(init, i, a);
      var p :| 0 <= p < |init| && init[p].Failed? && init[p].step == i && init[p].attempt == a;
      assert log[p] == init[p];
    } else {
      assert log[n].attempt == a;
    }
  }

  // ----- The invariant -----

  /** A body of this step is executing right now. */
  ghost predicate InFlight(s: State, id: Id, i: nat) {
    exists rid :: rid in s.runs && s.runs[rid].wf == id && s.runs[rid].pc.BodyRunning? && s.runs[rid].At() == i
  }

  function Outcomes(log: Log, i: nat): nat {
    Count(log, FailedAt(i)) + Count(log, AtStep(i, CompletedKind))
  }

  /** Bodies started are outcomes recorded, bodies lost to crashes, and the one executing. */
  ghost predicate Accounted(s: State, id: Id, i: nat) {
    s.audit.begun[(id, i)] == Outcomes(s.Log(id), i) + s.audit.lost[(id, i)] + if InFlight(s, id, i) then 1 else 0
  }

  /** A failure not yet acted upon is the last one of its step. */
  ghost predicate RetryingOk(s: State, r: Run) {
    r.pc.Retrying? ==> Count(s.Log(r.wf), FailedAt(r.At())) == r.pc.attempt + 1
  }

  ghost predicate CountInv(code: Code, s: State) {
    && RecordInv(code, s)
    && (forall id {:trigger s.Log(id)} :: id in s.store.rows ==> Numbered(s.Log(id)))
    && (forall id, i: nat {:trigger Accounted(s, id, i)} :: Accounted(s, id, i))
    && (forall rid {:trigger s.runs[rid]} :: rid in s.runs ==> RetryingOk(s, s.runs[rid]))
  }

  // ----- What an action does to the counts -----

  /** The outcome an action records, if any. */
  predicate Records(s: State, a: Action, id: Id, i: nat) {
    Moves(s, a, id) && s.runs[a.rid].pc.BodyRunning? && s.runs[a.rid].At() == i
  }

  /** FAILED and COMPLETED are written at the end of a body, numbered from the run's snapshot. */
  lemma OutcomeEvents(code: Code, s: State, r: Run, choice: Choice)
    requires CanStep(code, r, choice)
    ensures var tx := MoveOf(code, s, r, choice).tx; var k := Count(r.hist, FailedAt(r.At()));
      && (tx.WriteEvent? && tx.event.Failed? ==>
            r.pc.BodyRunning? && choice.Fails? && tx.event == Failed(r.At(), choice.error, k))
      && (tx.WriteEvent? && tx.event.Completed? ==>
            r.pc.BodyRunning? && choice.Succeeds? && tx.event == Completed(r.At(), ToJsonSafe(choice.value), k + 1))
      && (r.pc.BodyRunning? ==> tx.WriteEvent? && (tx.event.Failed? || tx.event.Completed?))
  {
    hide First, Count, SerializeArguments, ToJsonSafe, Lookup, Settles;
  }

  lemma SnapshotCounts(code: Code, s: State, r: Run)
    requires FamilyInv(code, s) && RunOk(code, s.store, r) && OnRecord(code, s, r) && r.pc.BodyRunning?
    ensures Count(r.hist, FailedAt(r.At())) == Count(s.Log(r.wf), FailedAt(r.At()))
    ensures Count(s.Log(r.wf), AtStep(r.At(), CompletedKind)) == 0
    ensures CommandOf(code, r).Activity? && FlowAt(code, s, r.wf)(r.obs) == CommandOf(code, r)
  {
    StartOfHistory(s.store, r);
    SnapshotAgrees(r.hist, s.Log(r.wf), r.At(), r.pc, FailedKind);
    SnapshotAgrees(r.hist, s.Log(r.wf), r.At(), r.pc, CompletedKind);
    ScanIsExact(s.Log(r.wf), AtStep(r.At(), CompletedKind));
  }

  lemma OwnCounts(s: Store, log: Log, tx: Tx, i: nat)
    ensures Count(OwnLog(s, log, tx), FailedAt(i)) ==
      Count(log, FailedAt(i)) + if tx.WriteEvent? && tx.event.Failed? && tx.event.step == i then 1 else 0
    ensures Count(OwnLog(s, log, tx), AtStep(i, CompletedKind)) ==
      Count(log, AtStep(i, CompletedKind)) + if tx.WriteEvent? && tx.event.Completed? && tx.event.step == i then 1 else 0
  {
    match tx
    case WriteEvent(_, e) => AppendScans(log, e);
    case CreateChild(_, step, child, name, input) => AppendScans(log, ChildStarted(step, child, name, input));
    case Finish(_, outcome, _) => AppendScans(log, TerminalEvent(outcome));
    case _ =>
  }

  lemma CountsAfter(code: Code, cfg: Config, s: State, a: Action, id: Id, i: nat)
    requires FamilyInv(code, s) && Enabled(code, s, a) && id in s.store.rows
    ensures var t := Apply(code, cfg, s, a); var done := Records(s, a, id, i);
      && Count(t.Log(id), FailedAt(i)) == Count(s.Log(id), FailedAt(i)) + (if done && a.choice.Fails? then 1 else 0)
      && Count(t.Log(id), AtStep(i, CompletedKind)) ==
           Count(s.Log(id), AtStep(i, CompletedKind)) + (if done && a.choice.Succeeds? then 1 else 0)
  {
    var t := Apply(code, cfg, s, a);
    if Moves(s, a, id) {
      OwnLogIsCommitted(code, s, a, cfg.lockDuration);
      OutcomeEvents(code, s, s.runs[a.rid], a.choice);
      OwnCounts(s.store, s.Log(id), TxOf(code, s, a), i);
      hide Step, Commit, Count, First, FamilyInv, AuditAfter, SeenAfter, OwnLog;
    } else {
      RowsHaveLogs(code, s);
      OthersGrewAside(code, s, a, id, s.now, cfg.lockDuration);
      hide FamilyInv, Enabled, Step, Commit, First, Count, AuditAfter, SeenAfter, GrewAside;
      AsideScans(s.Log(id), t.Log(id), i, FailedKind);
      AsideScans(s.Log(id), t.Log(id), i, CompletedKind);
    }
  }

  lemma NumberedAfter(code: Code, cfg: Config, s: State, a: Action, id: Id)
    requires CountInv(code, s) && Enabled(code, s, a) && id in s.store.rows
    ensures Numbered(Apply(code, cfg, s, a).Log(id))
  {
    var t := Apply(code, cfg, s, a);
    assert Numbered(s.Log(id));
    if Moves(s, a, id) {
      var r := s.runs[a.rid];
      RunOfRecord(code, s, a.rid);
      OwnLogIsCommitted(code, s, a, cfg.lockDuration);
      OutcomeEvents(code, s, r, a.choice);
      if r.pc.BodyRunning? {
        SnapshotCounts(code, s, r);
      }
      hide Step, Commit, Count, First, CountInv, FamilyInv, AuditAfter, SeenAfter, Numbered;
      OwnNumbered(s.store, s.Log(id), TxOf(code, s, a));
    } else {
      RecordIsExclusive(code, s);
      RowsHaveLogs(code, s);
      OthersGrewAside(code, s, a, id, s.now, cfg.lockDuration);
      hide Step, Commit, Count, First, CountInv, FamilyInv, AuditAfter, SeenAfter, Numbered, GrewAside;
      NumberedAside(s.Log(id), t.Log(id));
    }
  }

  lemma OwnNumbered(s: Store, log: Log, tx: Tx)
    requires Numbered(log)
    requires tx.WriteEvent? && tx.event.Failed? ==>
      tx.event.attempt == Count(log, FailedAt(tx.event.step)) && Count(log, AtStep(tx.event.step, CompletedKind)) == 0
    requires tx.WriteEvent? && tx.event.Completed? ==> tx.event.attemptsTotal == Count(log, FailedAt(tx.event.step)) + 1
    ensures Numbered(OwnLog(s, log, tx))
  {
    hide Numbered, Count;
    match tx
    case WriteEvent(_, e) => NumberedAppend(log, e);
    case CreateChild(_, step, child, name, input) => NumberedAppend(log, ChildStarted(step, child, name, input));
    case Finish(_, outcome, _) => NumberedAppend(log, TerminalEvent(outcome));
    case _ =>
  }

  // ----- Bodies -----

  /** A run of the workflow has a failure of this step it has not yet acted upon. */
  ghost predicate Handling(s: State, id: Id, i: nat) {
    exists rid :: rid in s.runs && s.runs[rid].wf == id && s.runs[rid].pc.Retrying? && s.runs[rid].At() == i
  }

  /** With one run per workflow, what is in flight is read off that run. */
  lemma InFlightOf(s: State, rid: RunId, i: nat)
    requires OneRunEach(s) && rid in s.runs
    ensures InFlight(s, s.runs[rid].wf, i) <==> s.runs[rid].pc.BodyRunning? && s.runs[rid].At() == i
    ensures Handling(s, s.runs[rid].wf, i) <==> s.runs[rid].pc.Retrying? && s.runs[rid].At() == i
  {
  }

  /** An action leaves the run of another workflow as it was, but for its heartbeat. */
  lemma BystanderFlight(code: Code, cfg: Config, s: State, a: Action, id: Id, i: nat)
    requires Enabled(code, s, a) && !Moves(s, a, id)
    requires a.Crash? ==> s.runs[a.rid].wf != id
    ensures InFlight(Apply(code, cfg, s, a), id, i) <==> InFlight(s, id, i)
    ensures Handling(Apply(code, cfg, s, a), id, i) <==> Handling(s, id, i)
  {
    var t := Apply(code, cfg, s, a);
    if a.Progress? {
      MoveShape(code, s, s.runs[a.rid], a.choice);
    }
    hide Step, Commit, First, AuditAfter, SeenAfter;
    SameRunsOf(code, cfg, s, a, id);
  }

  lemma SameRunsOf(code: Code, cfg: Config, s: State, a: Action, id: Id)
    requires Enabled(code, s, a) && !Moves(s, a, id)
    requires a.Crash? ==> s.runs[a.rid].wf != id
    ensures var t := Apply(code, cfg, s, a);
      && (forall rid {:trigger s.runs[rid]} {:trigger t.runs[rid]} :: rid in s.runs && s.runs[rid].wf == id ==>
            rid in t.runs && t.runs[rid].wf == id && t.runs[rid].pc == s.runs[rid].pc && t.runs[rid].obs == s.runs[rid].obs)
      && (forall rid {:trigger s.runs[rid]} {:trigger t.runs[rid]} ::
            rid in t.runs && t.runs[rid].wf == id && !t.runs[rid].pc.Claimed? ==>
            rid in s.runs && s.runs[rid].wf == id && t.runs[rid].pc == s.runs[rid].pc && t.runs[rid].obs == s.runs[rid].obs)
  {
    hide Step, Commit, First, AuditAfter, SeenAfter;
    if a.Progress? {
      MoveShape(code, s, s.runs[a.rid], a.choice);
    }
  }

  lemma AccountedAfter(code: Code, cfg: Config, restorable: bool, s: State, a: Action, id: Id, i: nat)
    requires CountInv(code, s) && Enabled(code, s, a) && Permits(code, Exclusive(restorable), s, a)
    ensures Accounted(Apply(code, cfg, s, a), id, i)
  {
    hide Step, Commit, First, Count, FamilyInv, Permits, OnRecord;
    assert Accounted(s, id, i);
    RecordIsExclusive(code, s);
    RunsStayApart(code, cfg, restorable, s, a);
    LogCounts(code, cfg, s, a, id, i);
    hide CountInv, Outcomes;
    if Moves(s, a, id) {
      hide Apply;
      MoverAccounted(code, cfg, s, a, i);
    } else if a.Crash? && s.runs[a.rid].wf == id {
      CrashAccounted(code, cfg, s, a, i);
    } else {
      hide Apply;
      BystanderFlight(code, cfg, s, a, id, i);
      BystanderAudit(code, cfg, s, a, id, i);
    }
  }

  /** A crash cuts off the body that was executing. */
  lemma CrashAccounted(code: Code, cfg: Config, s: State, a: Action, i: nat)
    requires OneRunEach(s) && Enabled(code, s, a) && a.Crash? && Accounted(s, s.runs[a.rid].wf, i)
    requires Outcomes(Apply(code, cfg, s, a).Log(s.runs[a.rid].wf), i) == Outcomes(s.Log(s.runs[a.rid].wf), i)
    ensures Accounted(Apply(code, cfg, s, a), s.runs[a.rid].wf, i)
  {
    hide Step, Commit, First, Outcomes, OutOfRetries;
    InFlightOf(s, a.rid, i);
    var t := Apply(code, cfg, s, a);
    assert forall rid :: rid in t.runs ==> t.runs[rid].wf != s.runs[a.rid].wf;
  }

  lemma LogCounts(code: Code, cfg: Config, s: State, a: Action, id: Id, i: nat)
    requires FamilyInv(code, s) && Enabled(code, s, a)
    ensures Outcomes(Apply(code, cfg, s, a).Log(id), i) == Outcomes(s.Log(id), i) + if Records(s, a, id, i) then 1 else 0
  {
    hide Step, Commit, First, Count, StoreInv, AuditAfter, SeenAfter;
    var t := Apply(code, cfg, s, a);
    if id in s.store.rows {
      CountsAfter(code, cfg, s, a, id, i);
    } else {
      ApplyKeepsFamily(code, cfg, s, a);
      NoOutcomes(i);
      NoRunOfNobody(code, s, a, id);
      if id in t.store.rows {
        RowsHaveLogs(code, s);
        ActionIsProper(code, s, a);
        CommitNewcomer(s.store, s.now, cfg.lockDuration, TxOf(code, s, a), id);
        assert t.Log(id) == [t.Log(id)[0]];
      } else {
        NoRunOfNobody(code, t, a, id);
      }
    }
  }

  lemma NoOutcomes(i: nat)
    ensures Outcomes([], i) == 0 && forall e: Event :: e.Started? ==> Outcomes([e], i) == 0
  {
    forall e: Event | e.Started?
      ensures Outcomes([e], i) == 0
    {
      SingletonScans(e);
    }
  }

  lemma NoRunOfNobody(code: Code, s: State, a: Action, id: Id)
    requires FamilyInv(code, s) && id !in s.store.rows
    ensures !Moves(s, a, id) && s.Log(id) == []
  {
    hide First;
    if a.Progress? && a.rid in s.runs {
      assert RunOk(code, s.store, s.runs[a.rid]);
    }
  }

  lemma BystanderAudit(code: Code, cfg: Config, s: State, a: Action, id: Id, i: nat)
    requires Enabled(code, s, a) && !Moves(s, a, id)
    requires a.Crash? ==> s.runs[a.rid].wf != id
    ensures var t := Apply(code, cfg, s, a);
      t.audit.begun[(id, i)] == s.audit.begun[(id, i)] && t.audit.lost[(id, i)] == s.audit.lost[(id, i)]
  {
    hide Step, Commit, First, Reopens, OutOfRetries;
  }

  lemma MoverAccounted(code: Code, cfg: Config, s: State, a: Action, i: nat)
    requires OneRunEach(s) && Enabled(code, s, a) && a.Progress? && Accounted(s, s.runs[a.rid].wf, i)
    requires OneRunEach(Apply(code, cfg, s, a))
    requires Outcomes(Apply(code, cfg, s, a).Log(s.runs[a.rid].wf), i) ==
      Outcomes(s.Log(s.runs[a.rid].wf), i) + if Records(s, a, s.runs[a.rid].wf, i) then 1 else 0
    ensures Accounted(Apply(code, cfg, s, a), s.runs[a.rid].wf, i)
  {
    hide Step, Commit, First, Count, Reopens, Outcomes, SeenAfter, Valid;
    var t, r := Apply(code, cfg, s, a), s.runs[a.rid];
    MoveShape(code, s, r, a.choice);
    InFlightOf(s, a.rid, i);
    BodyMoves(code, s, r, a.choice);
    if a.rid in t.runs {
      InFlightOf(t, a.rid, i);
    } else {
      assert forall rid :: rid in t.runs ==> t.runs[rid].wf != r.wf;
    }
  }

  /** A body is executing after a move exactly if the move started it. */
  lemma BodyMoves(code: Code, s: State, r: Run, choice: Choice)
    requires CanStep(code, r, choice)
    ensures var m := MoveOf(code, s, r, choice);
      && (r.pc.BodyReady? <==> m.next.Some? && m.next.value.pc.BodyRunning?)
      && (r.pc.BodyReady? ==> m.next.value.obs == r.obs)
      && (m.next.Some? && m.next.value.pc.Retrying? <==> r.pc.BodyRunning? && choice.Fails?)
      && (m.next.Some? && m.next.value.pc.Retrying? ==>
            m.next.value.obs == r.obs && m.next.value.pc.attempt == Count(r.hist, FailedAt(r.At())))
  {
    hide First, Count, SerializeArguments, ToJsonSafe, Lookup, Settles;
  }

  // ----- Preservation of the counts -----

  lemma RetryingAfter(code: Code, cfg: Config, s: State, a: Action, rid: RunId)
    requires CountInv(code, s) && Enabled(code, s, a) && rid in Apply(code, cfg, s, a).runs
    ensures RetryingOk(Apply(code, cfg, s, a), Apply(code, cfg, s, a).runs[rid])
  {
    hide Step, Commit, First, Count, AuditAfter, SeenAfter, StoreInv, RunInv, Numbered, Accounted, AtMostOnce;
    if rid in s.runs {
      var r := s.runs[rid];
      assert RetryingOk(s, r);
      RunOfRecord(code, s, rid);
      RecordIsExclusive(code, s);
      hide CountInv, FlowAt;
      CountsAfter(code, cfg, s, a, r.wf, r.At());
      if a.Progress? && a.rid == rid {
        MoveShape(code, s, r, a.choice);
        BodyMoves(code, s, r, a.choice);
        if r.pc.BodyRunning? {
          SnapshotCounts(code, s, r);
        }
      }
      hide FamilyInv, RunOk, OnRecord;
    }
  }

  lemma NewcomerNumbered(code: Code, cfg: Config, s: State, a: Action, id: Id)
    requires FamilyInv(code, s) && Enabled(code, s, a) && id !in s.store.rows && id in Apply(code, cfg, s, a).store.rows
    ensures Numbered(Apply(code, cfg, s, a).Log(id))
    ensures forall i: nat :: Count(Apply(code, cfg, s, a).Log(id), FailedAt(i)) == 0
  {
    hide Step, Commit, First, Count, AuditAfter, SeenAfter, RunsAfter, StoreInv;
    RowsHaveLogs(code, s);
    ActionIsProper(code, s, a);
    CommitNewcomer(s.store, s.now, cfg.lockDuration, TxOf(code, s, a), id);
    hide FamilyInv, Proper;
    var log := Apply(code, cfg, s, a).Log(id);
    SingletonScans(log[0]);
    assert log == [log[0]];
  }

  lemma ApplyKeepsCounts(code: Code, cfg: Config, restorable: bool, s: State, a: Action)
    requires CountInv(code, s) && Enabled(code, s, a) && Permits(code, Exclusive(restorable), s, a)
    ensures CountInv(code, Apply(code, cfg, s, a))
  {
    hide Apply, Permits, Enabled, Numbered, Accounted, RetryingOk, FamilyInv, OneRunEach;
    var t := Apply(code, cfg, s, a);
    ApplyKeepsRecord(code, cfg, restorable, s, a);
    RecordIsExclusive(code, s);
    hide RecordInv;
    forall id | id in t.store.rows
      ensures Numbered(t.Log(id))
    {
      if id in s.store.rows {
        NumberedAfter(code, cfg, s, a, id);
      } else {
        NewcomerNumbered(code, cfg, s, a, id);
      }
    }
    forall id, i: nat
      ensures Accounted(t, id, i)
    {
      AccountedAfter(code, cfg, restorable, s, a, id, i);
    }
    forall rid | rid in t.runs
      ensures RetryingOk(t, t.runs[rid])
    {
      RetryingAfter(code, cfg, s, a, rid);
    }
  }

  lemma InitCounts(code: Code, now: Time)
    ensures CountInv(code, Init(now))
  {
    InitRecord(code, now);
  }

  lemma {:induction false} CountsHold(code: Code, cfg: Config, restorable: bool, s: State, acts: seq<Action>)
    requires CountInv(code, s) && Legal(code, cfg, Exclusive(restorable), s, acts)
    ensures CountInv(code, Final(code, cfg, Exclusive(restorable), s, acts))
    decreases |acts|
  {
    hide Apply, Enabled, Permits, CountInv;
    if acts != [] {
      ApplyKeepsCounts(code, cfg, restorable, s, acts[0]);
      CountsHold(code, cfg, restorable, Apply(code, cfg, s, acts[0]), acts[1..]);
    }
  }

  // ----- The retry limit -----

  /** The last failure of the step has not yet been acted upon, or the workflow has failed. */
  ghost predicate Settled(s: State, id: Id, i: nat)
    requires id in s.store.rows
  {
    s.store.rows[id].status == FAILED || Handling(s, id, i)
  }

  /** Failures beyond `limit` are paid for by reopenings; one more must be, before the next. */
  ghost predicate LimitOk(s: State, id: Id, i: nat, limit: nat)
    requires id in s.store.rows
  {
    var k := Count(s.Log(id), FailedAt(i));
    k <= limit || k - limit - (if Settled(s, id, i) then 1 else 0) <= s.audit.reopened[id]
  }

  /** No run of the workflow is at this step with a higher limit. */
  ghost predicate RunsBounded(code: Code, s: State, id: Id, i: nat, limit: nat) {
    forall rid {:trigger s.runs[rid]} :: rid in s.runs && s.runs[rid].wf == id && s.runs[rid].At() == i ==>
      CommandOf(code, s.runs[rid]).Activity? ==> CommandOf(code, s.runs[rid]).policy.maxRetries <= limit
  }

  lemma WakeIsCounted(s: Store, now: Time, lockDuration: Time, tx: Tx, id: Id)
    requires Valid(s, tx) && s.Has(id) && s.rows[id].status == FAILED
    requires tx.MarkWaiting? || tx.Finish? ==> tx.id != id
    ensures id in Commit(s, now, lockDuration, tx).rows
    ensures Commit(s, now, lockDuration, tx).rows[id].status != FAILED ==> Reopens(s, tx)[id] == 1
  {
    hide First;
  }

  lemma OthersDoNotFail(s: Store, now: Time, lockDuration: Time, tx: Tx, id: Id)
    requires Valid(s, tx) && s.Has(id) && s.rows[id].status != FAILED && (tx.Finish? ==> tx.id != id)
    ensures id in Commit(s, now, lockDuration, tx).rows && Commit(s, now, lockDuration, tx).rows[id].status != FAILED
  {
    hide First;
  }

  lemma ReopenedAfter(code: Code, cfg: Config, s: State, a: Action, id: Id)
    requires Enabled(code, s, a) && s.store.Has(id) && !Moves(s, a, id)
    ensures var t := Apply(code, cfg, s, a);
      && id in t.store.rows && s.audit.reopened[id] <= t.audit.reopened[id]
      && (s.store.rows[id].status == FAILED && t.store.rows[id].status != FAILED ==>
            s.audit.reopened[id] + 1 <= t.audit.reopened[id])
      && (s.store.rows[id].status != FAILED ==> t.store.rows[id].status != FAILED)
  {
    if a.Progress? {
      MoveShape(code, s, s.runs[a.rid], a.choice);
    }
    hide Step, First, ChildId, RootId, RunsAfter, SeenAfter, OutOfRetries, Commit, Reopens;
    if s.store.rows[id].status == FAILED {
      WakeIsCounted(s.store, s.now, cfg.lockDuration, TxOf(code, s, a), id);
      if a.Crash? {
        CrashCommitsNothing(code, cfg, s, a);
      }
    } else {
      OthersDoNotFail(s.store, s.now, cfg.lockDuration, TxOf(code, s, a), id);
    }
  }

  lemma CrashCommitsNothing(code: Code, cfg: Config, s: State, a: Action)
    requires Enabled(code, s, a) && a.Crash?
    ensures Apply(code, cfg, s, a).store == s.store
  {
    hide Step;
  }

  lemma AppliedStillHas(code: Code, cfg: Config, s: State, a: Action, id: Id)
    requires FamilyInv(code, s) && Enabled(code, s, a) && id in s.store.rows
    ensures id in Apply(code, cfg, s, a).store.rows
    ensures Apply(code, cfg, s, a).audit.reopened[id] >= s.audit.reopened[id]
  {
    ApplyKeepsFamily(code, cfg, s, a);
    hide Commit, Step, FamilyInv, Reopens;
  }

  /** Acting on a failure: within the limit the row is rescheduled, past it the workflow fails. */
  lemma RetryEnds(code: Code, cfg: Config, s: State, a: Action)
    requires FamilyInv(code, s) && Enabled(code, s, a) && a.Progress? && s.runs[a.rid].pc.Retrying?
    requires CommandOf(code, s.runs[a.rid]).Activity?
    ensures var r := s.runs[a.rid]; var t := Apply(code, cfg, s, a);
      && a.rid !in t.runs && r.wf in t.store.rows
      && (r.pc.attempt + 1 > CommandOf(code, r).policy.maxRetries ==> t.store.rows[r.wf].status == FAILED)
  {
    var r := s.runs[a.rid];
    assert RunOk(code, s.store, r);
    MovesAreProper(code, s, r, a.choice);
    if s.store.rows[r.wf].parent.Some? {
      ParentIsAnother(s.store, r.wf);
    }
    hide StoreInv, First;
  }

  lemma BystanderLimit(code: Code, cfg: Config, s: State, a: Action, id: Id, i: nat, limit: nat)
    requires FamilyInv(code, s) && Enabled(code, s, a) && id in s.store.rows && LimitOk(s, id, i, limit)
    requires !Moves(s, a, id) && (a.Crash? ==> s.runs[a.rid].wf != id)
    ensures id in Apply(code, cfg, s, a).store.rows && LimitOk(Apply(code, cfg, s, a), id, i, limit)
  {
    hide Apply, Enabled, First, Count, StoreInv;
    RowsHaveLogs(code, s);
    hide RunOk;
    CountsAfter(code, cfg, s, a, id, i);
    BystanderFlight(code, cfg, s, a, id, i);
    ReopenedAfter(code, cfg, s, a, id);
    hide FamilyInv, Handling;
  }

  /** With its row RUNNING, a workflow is settled only by a run that handles a failure. */
  lemma SettledOf(code: Code, s: State, rid: RunId, i: nat)
    requires RecordInv(code, s) && rid in s.runs && s.runs[rid].wf in s.store.rows
    ensures Settled(s, s.runs[rid].wf, i) <==> s.runs[rid].pc.Retrying? && s.runs[rid].At() == i
  {
    hide OnRecord, FamilyInv;
    RecordIsExclusive(code, s);
    InFlightOf(s, rid, i);
  }

  lemma CrashLimit(code: Code, cfg: Config, s: State, a: Action, i: nat, limit: nat)
    requires CountInv(code, s) && Enabled(code, s, a) && a.Crash? && s.runs[a.rid].wf in s.store.rows
    requires LimitOk(s, s.runs[a.rid].wf, i, limit) && RunsBounded(code, s, s.runs[a.rid].wf, i, limit)
    ensures LimitOk(Apply(code, cfg, s, a), s.runs[a.rid].wf, i, limit)
  {
    hide Step, Commit, First, Count, StoreInv, RunInv, Numbered, Accounted, FlowOf, Reopens, AtMostOnce;
    assert RetryingOk(s, s.runs[a.rid]);
    RunOfRecord(code, s, a.rid);
    SettledOf(code, s, a.rid, i);
    CrashCommitsNothing(code, cfg, s, a);
    hide CountInv, OnRecord, FamilyInv, Handling;
  }

  lemma MoverLimit(code: Code, cfg: Config, s: State, a: Action, i: nat, limit: nat)
    requires CountInv(code, s) && Enabled(code, s, a) && a.Progress? && s.runs[a.rid].wf in s.store.rows
    requires LimitOk(s, s.runs[a.rid].wf, i, limit) && RunsBounded(code, s, s.runs[a.rid].wf, i, limit)
    ensures s.runs[a.rid].wf in Apply(code, cfg, s, a).store.rows
    ensures LimitOk(Apply(code, cfg, s, a), s.runs[a.rid].wf, i, limit)
  {
    hide Step, Commit, First, Count, StoreInv, RunInv, Numbered, Accounted, FlowOf, AtMostOnce, AuditAfter, SeenAfter;
    var t, r := Apply(code, cfg, s, a), s.runs[a.rid];
    assert RetryingOk(s, r);
    RunOfRecord(code, s, a.rid);
    SettledOf(code, s, a.rid, i);
    hide CountInv, OnRecord;
    CountsAfter(code, cfg, s, a, r.wf, i);
    AppliedStillHas(code, cfg, s, a, r.wf);
    if Records(s, a, r.wf, i) && a.choice.Fails? {
      FailureSettles(code, cfg, s, a);
    } else if r.pc.Retrying? && r.At() == i {
      RetryEnds(code, cfg, s, a);
    }
    hide FamilyInv, RunOk, Handling, Enabled;
  }

  lemma FailureSettles(code: Code, cfg: Config, s: State, a: Action)
    requires Enabled(code, s, a) && a.Progress? && s.runs[a.rid].pc.BodyRunning? && a.choice.Fails?
    requires s.runs[a.rid].wf in Apply(code, cfg, s, a).store.rows
    ensures Settled(Apply(code, cfg, s, a), s.runs[a.rid].wf, s.runs[a.rid].At())
  {
    var r := s.runs[a.rid];
    MoveShape(code, s, r, a.choice);
    BodyMoves(code, s, r, a.choice);
    hide Step, Commit, First, Count;
    assert a.rid in Apply(code, cfg, s, a).runs && Apply(code, cfg, s, a).runs[a.rid].pc.Retrying?;
  }

  lemma LimitAfter(code: Code, cfg: Config, s: State, a: Action, id: Id, i: nat, limit: nat)
    requires CountInv(code, s) && Enabled(code, s, a) && id in Apply(code, cfg, s, a).store.rows
    requires id in s.store.rows ==> LimitOk(s, id, i, limit) && RunsBounded(code, s, id, i, limit)
    ensures LimitOk(Apply(code, cfg, s, a), id, i, limit)
  {
    hide Apply, CanStep, Valid, Numbered, Accounted, RetryingOk, FamilyInv, OneRunEach, OnRecord, RunsBounded;
    RecordIsExclusive(code, s);
    if id !in s.store.rows {
      hide CountInv;
      NewcomerNumbered(code, cfg, s, a, id);
    } else if Moves(s, a, id) {
      hide LimitOk;
      MoverLimit(code, cfg, s, a, i, limit);
    } else if a.Crash? && s.runs[a.rid].wf == id {
      hide LimitOk;
      CrashLimit(code, cfg, s, a, i, limit);
    } else {
      hide LimitOk, CountInv;
      BystanderLimit(code, cfg, s, a, id, i, limit);
    }
  }

  // ----- What bounds the limits of the runs at a step -----

  /** Whatever the code calls at this step, its limit is no higher. */
  ghost predicate CallsBounded(w: Workflow, i: nat, limit: nat) {
    forall obs :: |obs| == i && w(obs).Activity? ==> w(obs).policy.maxRetries <= limit
  }

  lemma BoundedByCode(code: Code, s: State, t: State, id: Id, i: nat, limit: nat)
    requires FamilyInv(code, s) && id in s.store.rows && Grows(s.store, t.store)
    requires id in t.store.rows && CallsBounded(FlowAt(code, t, id), i, limit)
    ensures RunsBounded(code, s, id, i, limit)
  {
    hide First, FlowOf;
    SameFlow(code, s, t, id);
    forall rid | rid in s.runs && s.runs[rid].wf == id && s.runs[rid].At() == i && CommandOf(code, s.runs[rid]).Activity?
      ensures CommandOf(code, s.runs[rid]).policy.maxRetries <= limit
    {
      RunFlow(code, s, rid);
    }
  }

  /** A run executes its workflow's code; without a history it has nothing to call. */
  lemma RunFlow(code: Code, s: State, rid: RunId)
    requires FamilyInv(code, s) && rid in s.runs && CommandOf(code, s.runs[rid]).Activity?
    ensures s.runs[rid].wf in s.store.rows && !s.runs[rid].pc.Claimed?
    ensures FlowAt(code, s, s.runs[rid].wf)(s.runs[rid].obs) == CommandOf(code, s.runs[rid])
  {
    assert RunOk(code, s.store, s.runs[rid]);
    if !s.runs[rid].pc.Claimed? {
      StartOfHistory(s.store, s.runs[rid]);
    }
  }

  lemma {:induction false} LimitHolds(
    code: Code, cfg: Config, restorable: bool, s: State, acts: seq<Action>, id: Id, i: nat, limit: nat)
    requires CountInv(code, s) && Legal(code, cfg, Exclusive(restorable), s, acts)
    requires id in s.store.rows ==> LimitOk(s, id, i, limit)
    requires var t := Final(code, cfg, Exclusive(restorable), s, acts);
      id in t.store.rows ==> CallsBounded(FlowAt(code, t, id), i, limit)
    ensures var t := Final(code, cfg, Exclusive(restorable), s, acts);
      id in t.store.rows ==> LimitOk(t, id, i, limit)
    decreases |acts|
  {
    hide Apply, Enabled, Permits, CountInv, LimitOk, CallsBounded, FlowAt, RunsBounded, FamilyInv;
    if acts != [] {
      var u, t := Apply(code, cfg, s, acts[0]), Final(code, cfg, Exclusive(restorable), s, acts);
      assert FamilyInv(code, s) by {
        CountedFamily(code, s);
      }
      FamilyHolds(code, cfg, Exclusive(restorable), s, acts);
      if id in s.store.rows && id in t.store.rows {
        BoundedByCode(code, s, t, id, i, limit);
      }
      ApplyKeepsCounts(code, cfg, restorable, s, acts[0]);
      if id in u.store.rows && (id in s.store.rows ==> id in t.store.rows) {
        LimitAfter(code, cfg, s, acts[0], id, i, limit);
      }
      RowsRemain(s.store, t.store, id);
      LimitHolds(code, cfg, restorable, u, acts[1..], id, i, limit);
    }
  }

  lemma CountedFamily(code: Code, s: State)
    requires CountInv(code, s)
    ensures FamilyInv(code, s)
  {
    RecordIsExclusive(code, s);
  }

  lemma RowsRemain(s: Store, t: Store, id: Id)
    requires Grows(s, t)
    ensures id in s.rows ==> id in t.rows
  {
  }

  /** With restorable results, runs at a step call what the recorded trace calls there. */
  lemma BoundedByTrace(code: Code, s: State, t: State, id: Id, i: nat)
    requires ReplayInv(code, s) && id in s.store.rows && id in t.store.rows && Grows(s.store, t.store)
    requires s.Seen(id) <= t.Seen(id) && i <= |t.Seen(id)| && FlowAt(code, t, id)(t.Seen(id)[..i]).Activity?
    ensures RunsBounded(code, s, id, i, FlowAt(code, t, id)(t.Seen(id)[..i]).policy.maxRetries)
  {
    hide First, FlowOf, WorkflowOk, OneRunEach;
    SameFlow(code, s, t, id);
    forall rid | rid in s.runs && s.runs[rid].wf == id && s.runs[rid].At() == i && CommandOf(code, s.runs[rid]).Activity?
      ensures CommandOf(code, s.runs[rid]) == FlowAt(code, t, id)(t.Seen(id)[..i])
    {
      assert RunOnTrace(code, s, s.runs[rid]);
      RunFlow(code, s, rid);
      assert s.runs[rid].obs == t.Seen(id)[..i];
    }
  }

  lemma {:induction false} TraceLimitHolds(code: Code, cfg: Config, s: State, acts: seq<Action>, id: Id, i: nat)
    requires CountInv(code, s) && ReplayInv(code, s) && Legal(code, cfg, Exclusive(true), s, acts)
    requires var t := Final(code, cfg, Exclusive(true), s, acts);
      && id in t.store.rows && i <= |t.Seen(id)| && FlowAt(code, t, id)(t.Seen(id)[..i]).Activity?
      && (id in s.store.rows ==> LimitOk(s, id, i, FlowAt(code, t, id)(t.Seen(id)[..i]).policy.maxRetries))
    ensures var t := Final(code, cfg, Exclusive(true), s, acts);
      LimitOk(t, id, i, FlowAt(code, t, id)(t.Seen(id)[..i]).policy.maxRetries)
    decreases |acts|
  {
    hide Apply, Enabled, Permits, CountInv, LimitOk, FlowAt, RunsBounded, ReplayInv;
    if acts != [] {
      var u, t := Apply(code, cfg, s, acts[0]), Final(code, cfg, Exclusive(true), s, acts);
      var limit := FlowAt(code, t, id)(t.Seen(id)[..i]).policy.maxRetries;
      ReplayHolds(code, cfg, s, acts);
      if id in s.store.rows {
        BoundedByTrace(code, s, t, id, i);
      }
      ApplyKeepsCounts(code, cfg, true, s, acts[0]);
      ApplyKeepsReplay(code, cfg, s, acts[0]);
      if id in u.store.rows {
        LimitAfter(code, cfg, s, acts[0], id, i, limit);
      }
      TraceLimitHolds(code, cfg, u, acts[1..], id, i);
    }
  }

  // ----- Main results -----

  /**
   * Retry accounting at any step of any workflow, over any behaviour in which its runs do not overlap.
   * With k FAILED events: they carry attempts 0 to k-1 in log order; a COMPLETED event counts k+1
   * attempts; and bodies started are those with a recorded outcome, those a crash cut off, and the one
   * executing.
   */
  lemma RetriesAreAccounted(code: Code, cfg: Config, restorable: bool, s: State, id: Id, i: nat)
    requires Reachable(code, cfg, Exclusive(restorable), s) && id in s.store.rows
    ensures
      var log := s.Log(id);
      var k := Count(log, AtStep(i, FailedKind));
      && (forall p :: 0 <= p < |log| && log[p].Failed? && log[p].step == i ==>
            log[p].attempt == Count(log[..p], AtStep(i, FailedKind)))
      && (forall a: nat :: a < k ==> HasAttempt(log, i, a))
      && (forall p :: 0 <= p < |log| && log[p].Completed? && log[p].step == i ==> log[p].attemptsTotal == k + 1)
      && s.audit.begun[(id, i)] ==
           k + Count(log, AtStep(i, CompletedKind)) + s.audit.lost[(id, i)] + (if InFlight(s, id, i) then 1 else 0)
  {
    hide Leads, Final, Legal, Count, FlowAt, RecordInv, InFlight, HasAttempt;
    var now, acts := ReachableBy(code, cfg, Exclusive(restorable), s);
    InitCounts(code, now);
    CountsHold(code, cfg, restorable, Init(now), acts);
    hide Reachable;
    var log := s.Log(id);
    assert Numbered(log) && Accounted(s, id, i);
    forall a: nat | a < Count(log, FailedAt(i))
      ensures HasAttempt(log, i, a)
    {
      AttemptsInOrder(log, i, a);
    }
    forall p | 0 <= p < |log| && log[p].Completed? && log[p].step == i
      ensures log[p].attemptsTotal == Count(log, FailedAt(i)) + 1
    {
      TotalIsFinal(log, p, i);
    }
  }

  /**
   * A step fails at most once more than any limit its code gives there, plus once for every crash before
   * an exhausted failure was acted upon and every wake of the failed workflow.
   */
  lemma FailuresAreBounded(code: Code, cfg: Config, restorable: bool, s: State, id: Id, i: nat, limit: nat)
    requires Reachable(code, cfg, Exclusive(restorable), s) && id in s.store.rows
    requires CallsBounded(FlowAt(code, s, id), i, limit)
    ensures Count(s.Log(id), AtStep(i, FailedKind)) <= limit + 1 + s.audit.reopened[id]
  {
    hide Leads, Final, Legal, Count, FlowAt, CountInv, CallsBounded, Settled;
    var now, acts := ReachableBy(code, cfg, Exclusive(restorable), s);
    InitCounts(code, now);
    LimitHolds(code, cfg, restorable, Init(now), acts, id, i, limit);
  }

  /** With restorable results the limit is that of the call the recorded trace makes at the step. */
  lemma FailuresKeepTheirLimit(code: Code, cfg: Config, s: State, id: Id, i: nat)
    requires Reachable(code, cfg, Exclusive(true), s) && id in s.store.rows
    requires i <= |s.Seen(id)| && FlowAt(code, s, id)(s.Seen(id)[..i]).Activity?
    ensures Count(s.Log(id), AtStep(i, FailedKind)) <=
      FlowAt(code, s, id)(s.Seen(id)[..i]).policy.maxRetries + 1 + s.audit.reopened[id]
  {
    hide Leads, Final, Legal, Count, FlowAt, CountInv, ReplayInv, Settled;
    var now, acts := ReachableBy(code, cfg, Exclusive(true), s);
    InitCounts(code, now);
    InitReplay(code, now);
    TraceLimitHolds(code, cfg, Init(now), acts, id, i);
  }

  /** A workflow that is never set running again past a failed step keeps the limit at every step. */
  lemma LimitHoldsUnlessReopened(code: Code, cfg: Config, s: State, id: Id, i: nat)
    requires Reachable(code, cfg, Exclusive(true), s) && id in s.store.rows && s.audit.reopened[id] == 0
    requires i <= |s.Seen(id)| && FlowAt(code, s, id)(s.Seen(id)[..i]).Activity?
    ensures Count(s.Log(id), AtStep(i, FailedKind)) <= FlowAt(code, s, id)(s.Seen(id)[..i]).policy.maxRetries + 1
  {
    hide Reachable, Count, FlowAt;
    FailuresKeepTheirLimit(code, cfg, s, id, i);
  }
}
