/**
 * What replay promises at the end: the trace only extends, completion reports the result of an
 * uninterrupted execution, finished workflows re-run harmlessly, sleeps are served in full, and
 * divergence is reported exactly when the code has changed.
 */
module Outcomes {
  import opened Wrappers
  import opened Ids
  import opened Serialization
  import opened Events
  import opened Transactions
  import opened Workflows
  import opened Machine
  import opened Cluster
  import opened Family
  import opened Replay
  import opened Transparency
  import opened RoundTrip
  import Lease

  // ----- Completed workflows -----

  /** Wherever a log records completion, everything before it explains the whole trace up to the return. */
  ghost predicate CompletionsOk(cs: Classes, w: Workflow, log: Log, seen: seq<Obs>) {
    forall p {:trigger log[p]} :: 0 <= p < |log| && log[p].WorkflowCompleted? ==>
      w(seen) == Return(log[p].result) && Explains(cs, w, log[..p], seen)
  }

  /** A run that has loaded its history knows of every completion in the log. */
  ghost predicate KnowsCompletions(log: Log, r: Run) {
    !r.pc.Claimed? ==> forall p {:trigger log[p]} :: |r.hist| <= p < |log| ==> !log[p].WorkflowCompleted?
  }

  ghost predicate OutcomeInv(code: Code, s: State) {
    && ReplayInv(code, s)
    && (forall id {:trigger s.Log(id)} :: id in s.store.rows ==>
          CompletionsOk(code.classes, FlowAt(code, s, id), s.Log(id), s.Seen(id)))
    && (forall rid {:trigger s.runs[rid]} :: rid in s.runs ==> KnowsCompletions(s.Log(s.runs[rid].wf), s.runs[rid]))
  }

  lemma PrefixOfAppend(log: Log, more: Log, p: nat)
    requires log <= more && p <= |log|
    ensures more[..p] == log[..p]
  {
  }

  lemma AsideCompletions(cs: Classes, w: Workflow, log: Log, more: Log, seen: seq<Obs>)
    requires CompletionsOk(cs, w, log, seen) && log <= more
    requires forall p {:trigger more[p]} :: |log| <= p < |more| ==> !more[p].WorkflowCompleted?
    ensures CompletionsOk(cs, w, more, seen)
  {
    hide Explains;
    forall p | 0 <= p < |more| && more[p].WorkflowCompleted?
      ensures w(seen) == Return(more[p].result) && Explains(cs, w, more[..p], seen)
    {
      assert p < |log| && log[p] == more[p];
      PrefixOfAppend(log, more, p);
    }
  }

  lemma CompletedGoesNoFurther(cs: Classes, w: Workflow, log: Log, seen: seq<Obs>, obs: seq<Obs>)
    requires CompletionsOk(cs, w, log, seen) && obs <= seen && !w(obs).Return?
    ensures |obs| == |seen| ==> forall p {:trigger log[p]} :: 0 <= p < |log| ==> !log[p].WorkflowCompleted?
  {
    hide Explains;
    assert |obs| == |seen| ==> obs == seen;
  }

  /** To any workflow but the mover's, nobody reports completion. */
  lemma OthersReportNothing(code: Code, s: State, a: Action, id: Id, now: Time, lockDuration: Time)
    requires Enabled(code, s, a) && s.store.Has(id) && !Moves(s, a, id) && Proper(s.store, TxOf(code, s, a))
    ensures var more := Commit(s.store, now, lockDuration, TxOf(code, s, a)).Log(id);
      s.Log(id) <= more && forall p {:trigger more[p]} :: |s.Log(id)| <= p < |more| ==> !more[p].WorkflowCompleted?
  {
    hide Step, First, Count, ChildId, RootId;
    if a.Progress? {
      MoveShape(code, s, s.runs[a.rid], a.choice);
    }
  }

  /** The one way a completion gets into a log. */
  lemma OnlyReturnReports(code: Code, s: State, r: Run, choice: Choice)
    requires CanStep(code, r, choice)
    ensures var tx := MoveOf(code, s, r, choice).tx;
      && (tx.WriteEvent? ==> !tx.event.WorkflowCompleted?)
      && (tx.Finish? && tx.outcome.ChildCompleted? ==>
            r.pc.Deciding? && CommandOf(code, r) == Return(tx.outcome.result))
  {
    hide First, Count, ChildId, SerializeArguments, ToJsonSafe, Lookup, Settles;
  }

  /** The move of a run observes a result only past a command that is not a return. */
  lemma OnlyUnfinishedObserve(code: Code, s: State, r: Run, choice: Choice)
    requires CanStep(code, r, choice) && MoveOf(code, s, r, choice).next.Some?
    ensures var r' := MoveOf(code, s, r, choice).next.value;
      && (r'.obs == r.obs || (r.pc.Claimed? && r'.obs == [] && r'.hist == s.Log(r.wf))
          || (!CommandOf(code, r).Return? && exists o :: r'.obs == r.obs + [o]))
      && (!r.pc.Claimed? ==> r'.hist == r.hist && !r'.pc.Claimed?)
  {
    hide First, Count, ChildId, SerializeArguments, ToJsonSafe, Lookup, Settles;
    var r' := MoveOf(code, s, r, choice).next.value;
    if |r'.obs| == |r.obs| + 1 {
      assert r'.obs == r.obs + [r'.obs[|r.obs|]];
    }
  }

  /** The mover, its flow, and what its move leaves in its log. */
  lemma MoverFacts(code: Code, cfg: Config, s: State, a: Action)
    requires ReplayInv(code, s) && Enabled(code, s, a) && Permits(code, Exclusive(true), s, a) && a.Progress?
    ensures var t := Apply(code, cfg, s, a); var r := s.runs[a.rid];
      && r.wf in s.store.rows && r.wf in t.store.rows && FlowAt(code, t, r.wf) == FlowAt(code, s, r.wf)
      && t.Log(r.wf) == OwnLog(s.store, s.Log(r.wf), TxOf(code, s, a))
      && WorkflowInv(code.classes, FlowAt(code, s, r.wf), s.Log(r.wf), s.Seen(r.wf), s.now)
      && RunInv(FlowAt(code, s, r.wf), s.Log(r.wf), s.Seen(r.wf), r)
      && (!r.pc.Claimed? ==> FlowAt(code, s, r.wf) == FlowOfRun(code, r) && r.obs <= s.Seen(r.wf))
  {
    var r := s.runs[a.rid];
    assert RunOk(code, s.store, r) && RunOnTrace(code, s, r) && WorkflowOk(code, s, r.wf);
    if !r.pc.Claimed? {
      StartOfHistory(s.store, r);
    }
    SameFlowAfter(code, cfg, s, a, r.wf);
    OwnLogIsCommitted(code, s, a, cfg.lockDuration);
    hide Step, Commit, WorkflowInv, First, Count, StoreInv, AuditAfter, SeenAfter;
  }

  lemma MoverCompletions(code: Code, cfg: Config, s: State, a: Action)
    requires OutcomeInv(code, s) && Enabled(code, s, a) && Permits(code, Exclusive(true), s, a) && a.Progress?
    ensures var t := Apply(code, cfg, s, a); var id := s.runs[a.rid].wf;
      && id in t.store.rows
      && CompletionsOk(code.classes, FlowAt(code, t, id), t.Log(id), t.Seen(id))
      && (a.rid in t.runs ==> KnowsCompletions(t.Log(id), t.runs[a.rid]))
  {
    MoverFacts(code, cfg, s, a);
    MoverLogCompletions(code, cfg, s, a);
    MoverKnows(code, cfg, s, a);
  }

  lemma OwnLogReports(s: Store, log: Log, tx: Tx)
    requires tx.WriteEvent? ==> !tx.event.WorkflowCompleted?
    ensures log <= OwnLog(s, log, tx)
    ensures !(tx.Finish? && tx.outcome.ChildCompleted?) ==>
      var more := OwnLog(s, log, tx);
      forall p {:trigger more[p]} :: |log| <= p < |more| ==> !more[p].WorkflowCompleted?
    ensures tx.Finish? && tx.outcome.ChildCompleted? ==> OwnLog(s, log, tx) == log + [WorkflowCompleted(tx.outcome.result)]
  {
  }

  lemma MoverLogCompletions(code: Code, cfg: Config, s: State, a: Action)
    requires OutcomeInv(code, s) && Enabled(code, s, a) && Permits(code, Exclusive(true), s, a) && a.Progress?
    ensures var t := Apply(code, cfg, s, a); var id := s.runs[a.rid].wf;
      && id in t.store.rows && CompletionsOk(code.classes, FlowAt(code, t, id), t.Log(id), t.Seen(id))
  {
    var t := Apply(code, cfg, s, a);
    var r := s.runs[a.rid];
    MoverFacts(code, cfg, s, a);
    var w, tx := FlowAt(code, s, r.wf), TxOf(code, s, a);
    assert CompletionsOk(code.classes, w, s.Log(r.wf), s.Seen(r.wf));
    OnlyReturnReports(code, s, r, a.choice);
    OwnLogReports(s.store, s.Log(r.wf), tx);
    SeenOfMover(code, cfg, s, a);
    LogCompletions(code, s, w, r, tx.Finish? && tx.outcome.ChildCompleted?, t.Log(r.wf), t.Seen(r.wf));
  }

  lemma LogCompletions(code: Code, s: State, w: Workflow, r: Run, reports: bool, more: Log, seen': seq<Obs>)
    requires WorkflowInv(code.classes, w, s.Log(r.wf), s.Seen(r.wf), s.now) && RunInv(w, s.Log(r.wf), s.Seen(r.wf), r)
    requires CompletionsOk(code.classes, w, s.Log(r.wf), s.Seen(r.wf)) && s.Log(r.wf) <= more
    requires !r.pc.Claimed? ==> w == FlowOfRun(code, r) && r.obs <= s.Seen(r.wf)
    requires if reports then r.pc.Deciding? && w(r.obs).Return? && more == s.Log(r.wf) + [WorkflowCompleted(w(r.obs).result)]
             else forall p {:trigger more[p]} :: |s.Log(r.wf)| <= p < |more| ==> !more[p].WorkflowCompleted?
    requires seen' != s.Seen(r.wf) ==> !r.pc.Claimed? && !w(r.obs).Return? && |r.obs| == |s.Seen(r.wf)|
    ensures CompletionsOk(code.classes, w, more, seen')
  {
    hide WorkflowInv, RunInv, First, Explains, CompletionsOk, FlowOf;
    var log, seen := s.Log(r.wf), s.Seen(r.wf);
    if reports {
      ReturnCompletes(code, s, w, r, more);
    } else {
      AsideCompletions(code.classes, w, log, more, seen);
      if seen' != seen {
        CompletedGoesNoFurther(code.classes, w, more, seen, r.obs);
        NoCompletions(code.classes, w, more, seen');
      }
    }
  }

  lemma NoCompletions(cs: Classes, w: Workflow, log: Log, seen: seq<Obs>)
    requires forall p {:trigger log[p]} :: 0 <= p < |log| ==> !log[p].WorkflowCompleted?
    ensures CompletionsOk(cs, w, log, seen)
  {
  }

  lemma MoverKnows(code: Code, cfg: Config, s: State, a: Action)
    requires OutcomeInv(code, s) && Enabled(code, s, a) && Permits(code, Exclusive(true), s, a) && a.Progress?
    ensures var t := Apply(code, cfg, s, a); var id := s.runs[a.rid].wf;
      a.rid in t.runs ==> KnowsCompletions(t.Log(id), t.runs[a.rid])
  {
    var r := s.runs[a.rid];
    assert KnowsCompletions(s.Log(r.wf), r);
    MoverFacts(code, cfg, s, a);
    OnlyReturnReports(code, s, r, a.choice);
    MoveShape(code, s, r, a.choice);
    if MoveOf(code, s, r, a.choice).next.Some? {
      OnlyUnfinishedObserve(code, s, r, a.choice);
    }
    hide Step, Commit, WorkflowInv, RunInv, First, ReplayInv, CompletionsOk, FlowOf, AuditAfter, SeenAfter;
  }

  lemma SameFlowAfter(code: Code, cfg: Config, s: State, a: Action, id: Id)
    requires FamilyInv(code, s) && Enabled(code, s, a) && id in s.store.rows
    ensures id in Apply(code, cfg, s, a).store.rows && FlowAt(code, Apply(code, cfg, s, a), id) == FlowAt(code, s, id)
    ensures s.Log(id) <= Apply(code, cfg, s, a).Log(id)
  {
    ApplyKeepsFamily(code, cfg, s, a);
    SameFlow(code, s, Apply(code, cfg, s, a), id);
  }

  /** The trace changes only when the mover, standing at its end, observes something. */
  lemma SeenOfMover(code: Code, cfg: Config, s: State, a: Action)
    requires Enabled(code, s, a) && a.Progress?
    requires !s.runs[a.rid].pc.Claimed? ==> s.runs[a.rid].obs <= s.Seen(s.runs[a.rid].wf)
    ensures var r := s.runs[a.rid]; var t := Apply(code, cfg, s, a);
      t.Seen(r.wf) != s.Seen(r.wf) ==>
        !r.pc.Claimed? && !CommandOf(code, r).Return? && |r.obs| == |s.Seen(r.wf)|
  {
    var r := s.runs[a.rid];
    MoveShape(code, s, r, a.choice);
    if MoveOf(code, s, r, a.choice).next.Some? {
      OnlyUnfinishedObserve(code, s, r, a.choice);
    }
    hide Step, Commit, First, Count, AuditAfter;
  }

  lemma ReturnCompletes(code: Code, s: State, w: Workflow, r: Run, more: Log)
    requires w == FlowOfRun(code, r) && r.pc.Deciding? && w(r.obs).Return?
    requires WorkflowInv(code.classes, w, s.Log(r.wf), s.Seen(r.wf), s.now) && RunInv(w, s.Log(r.wf), s.Seen(r.wf), r)
    requires CompletionsOk(code.classes, w, s.Log(r.wf), s.Seen(r.wf))
    requires more == s.Log(r.wf) + [WorkflowCompleted(w(r.obs).result)]
    ensures CompletionsOk(code.classes, w, more, s.Seen(r.wf))
  {
    var log, seen := s.Log(r.wf), s.Seen(r.wf);
    UnsettledIsFrontier(code.classes, w, log, seen, s.now, r);
    hide Explains, First, Count, RunInv, StepsFit, AtMostOnce, SleepsOver;
    forall p | 0 <= p < |more| && more[p].WorkflowCompleted?
      ensures w(seen) == Return(more[p].result) && Explains(code.classes, w, more[..p], seen)
    {
      if p < |log| {
        assert log[p] == more[p];
        PrefixOfAppend(log, more, p);
      } else {
        assert more[..p] == log;
      }
    }
  }

  lemma BystanderCompletions(code: Code, cfg: Config, s: State, a: Action, id: Id)
    requires OutcomeInv(code, s) && Enabled(code, s, a) && id in s.store.rows && !Moves(s, a, id)
    ensures var t := Apply(code, cfg, s, a);
      && id in t.store.rows && CompletionsOk(code.classes, FlowAt(code, t, id), t.Log(id), t.Seen(id))
      && s.Log(id) <= t.Log(id)
      && forall p {:trigger t.Log(id)[p]} :: |s.Log(id)| <= p < |t.Log(id)| ==> !t.Log(id)[p].WorkflowCompleted?
  {
    BystanderAfter(code, cfg, s, a, id);
    ActionIsProper(code, s, a);
    OthersReportNothing(code, s, a, id, s.now, cfg.lockDuration);
    var t := Apply(code, cfg, s, a);
    hide Step, Commit, Explains, First, StoreInv, AuditAfter, WorkflowInv;
    AsideCompletions(code.classes, FlowAt(code, s, id), s.Log(id), t.Log(id), s.Seen(id));
  }

  lemma NewcomerCompletions(code: Code, cfg: Config, s: State, a: Action, id: Id)
    requires ReplayInv(code, s) && Enabled(code, s, a) && id !in s.store.rows && id in Apply(code, cfg, s, a).store.rows
    ensures var t := Apply(code, cfg, s, a);
      CompletionsOk(code.classes, FlowAt(code, t, id), t.Log(id), t.Seen(id))
  {
    hide Apply, Enabled, FamilyInv, WorkflowOk, RunOnTrace, FlowAt, Explains;
    NewcomerIsFresh(code, cfg, s, a, id);
    hide ReplayInv;
  }

  lemma RunCompletions(code: Code, cfg: Config, s: State, a: Action, rid: RunId)
    requires OutcomeInv(code, s) && Enabled(code, s, a) && Permits(code, Exclusive(true), s, a)
    requires rid in Apply(code, cfg, s, a).runs
    ensures var t := Apply(code, cfg, s, a); KnowsCompletions(t.Log(t.runs[rid].wf), t.runs[rid])
  {
    hide Step, Commit, First, AuditAfter, SeenAfter, Valid, FamilyInv, RestorableOutcome, PcFits, CommandOf;
    hide WorkflowOk, CompletionsOk, RunInv, FlowAt;
    var t := Apply(code, cfg, s, a);
    if rid in s.runs {
      var r := s.runs[rid];
      assert RunOnTrace(code, s, r) && KnowsCompletions(s.Log(r.wf), r);
      if a.Progress? && a.rid == rid {
        MoveShape(code, s, r, a.choice);
        MoverCompletions(code, cfg, s, a);
      } else {
        assert !Moves(s, a, r.wf);
        BystanderCompletions(code, cfg, s, a, r.wf);
      }
    }
  }

  lemma ApplyKeepsOutcomes(code: Code, cfg: Config, s: State, a: Action)
    requires OutcomeInv(code, s) && Enabled(code, s, a) && Permits(code, Exclusive(true), s, a)
    ensures OutcomeInv(code, Apply(code, cfg, s, a))
  {
    hide Apply, Permits, Enabled, CompletionsOk, KnowsCompletions, FlowAt, FamilyInv, WorkflowOk, RunOnTrace;
    hide OneRunEach, Grows;
    var t := Apply(code, cfg, s, a);
    ApplyKeepsReplay(code, cfg, s, a);
    hide ReplayInv;
    forall id | id in t.store.rows
      ensures CompletionsOk(code.classes, FlowAt(code, t, id), t.Log(id), t.Seen(id))
    {
      if id !in s.store.rows {
        NewcomerCompletions(code, cfg, s, a, id);
      } else if Moves(s, a, id) {
        MoverCompletions(code, cfg, s, a);
      } else {
        BystanderCompletions(code, cfg, s, a, id);
      }
    }
    forall rid | rid in t.runs
      ensures KnowsCompletions(t.Log(t.runs[rid].wf), t.runs[rid])
    {
      RunCompletions(code, cfg, s, a, rid);
    }
  }

  lemma InitOutcomes(code: Code, now: Time)
    ensures OutcomeInv(code, Init(now))
  {
    InitReplay(code, now);
  }

  lemma {:induction false} OutcomesHold(code: Code, cfg: Config, s: State, acts: seq<Action>)
    requires OutcomeInv(code, s) && Legal(code, cfg, Exclusive(true), s, acts)
    ensures OutcomeInv(code, Final(code, cfg, Exclusive(true), s, acts))
    decreases |acts|
  {
    hide Apply, Enabled, Permits, OutcomeInv;
    if acts != [] {
      ApplyKeepsOutcomes(code, cfg, s, acts[0]);
      OutcomesHold(code, cfg, Apply(code, cfg, s, acts[0]), acts[1..]);
    }
  }

  lemma ReachableOutcomes(code: Code, cfg: Config, s: State)
    requires Reachable(code, cfg, Exclusive(true), s)
    ensures OutcomeInv(code, s)
  {
    hide OutcomeInv, Leads, Legal, Final;
    var now, acts := ReachableBy(code, cfg, Exclusive(true), s);
    InitOutcomes(code, now);
    OutcomesHold(code, cfg, Init(now), acts);
  }

  // ----- Main results -----

  /** The log explains this trace, and admits no other: whatever else it explains is shorter or longer. */
  ghost predicate OnlyTrace(cs: Classes, w: Workflow, log: Log, seen: seq<Obs>) {
    && Explains(cs, w, log, seen)
    && forall obs :: Explains(cs, w, log, obs) ==> obs <= seen || seen <= obs
  }

  lemma ExplainedIsOnlyTrace(cs: Classes, w: Workflow, log: Log, seen: seq<Obs>)
    requires Explains(cs, w, log, seen)
    ensures OnlyTrace(cs, w, log, seen)
  {
    hide Explains;
    forall obs | Explains(cs, w, log, obs)
      ensures obs <= seen || seen <= obs
    {
      if |obs| <= |seen| {
        OneTrace(cs, w, log, obs, seen);
      } else {
        OneTrace(cs, w, log, seen, obs);
      }
    }
  }

  /**
   * Crash-transparent replay. Between any two moments of a behaviour, with crashes anywhere, logs
   * and traces only extend, the log explains the whole trace and admits no other, and every run
   * has been given a prefix of it.
   */
  lemma CrashTransparency(code: Code, cfg: Config, s: State, t: State)
    requires Reachable(code, cfg, Exclusive(true), s) && Leads(code, cfg, Exclusive(true), s, t)
    ensures Grows(s.store, t.store)
    ensures forall id :: id in s.store.rows ==> s.Seen(id) <= t.Seen(id)
    ensures forall id :: id in t.store.rows ==> OnlyTrace(code.classes, FlowAt(code, t, id), t.Log(id), t.Seen(id))
    ensures forall rid :: rid in t.runs && !t.runs[rid].pc.Claimed? ==> t.runs[rid].obs <= t.Seen(t.runs[rid].wf)
  {
    hide Leads, Final, Legal, Apply, Explains, FlowAt, FamilyInv, Grows, OnlyTrace;
    ReachableReplay(code, cfg, s);
    hide Reachable;
    var more := LeadsBy(code, cfg, Exclusive(true), s, t);
    ReplayHolds(code, cfg, s, more);
    forall id | id in t.store.rows
      ensures OnlyTrace(code.classes, FlowAt(code, t, id), t.Log(id), t.Seen(id))
    {
      assert WorkflowOk(code, t, id);
      ExplainedIsOnlyTrace(code.classes, FlowAt(code, t, id), t.Log(id), t.Seen(id));
    }
    forall rid | rid in t.runs && !t.runs[rid].pc.Claimed?
      ensures t.runs[rid].obs <= t.Seen(t.runs[rid].wf)
    {
      assert RunOnTrace(code, t, t.runs[rid]);
    }
  }

  /**
   * The result a workflow reports, however often it crashed, is the one its code returns when it is
   * executed once, without the engine, in any world that gives each step its recorded outcome.
   */
  lemma CompletionIsUninterrupted(code: Code, cfg: Config, s: State, id: Id, p: nat, world: Oracle)
    requires Reachable(code, cfg, Exclusive(true), s)
    requires id in s.store.rows && p < |s.Log(id)| && s.Log(id)[p].WorkflowCompleted?
    requires Agrees(code.classes, s.Log(id), world)
    ensures var w := FlowAt(code, s, id);
      w(Uninterrupted(w, world, |s.Seen(id)|)) == Return(s.Log(id)[p].result)
  {
    hide Leads, Final, Legal, Apply, Explains, FlowAt, FamilyInv, Agrees;
    ReachableOutcomes(code, cfg, s);
    hide Reachable;
    assert WorkflowOk(code, s, id);
    assert CompletionsOk(code.classes, FlowAt(code, s, id), s.Log(id), s.Seen(id));
    ExplainedIsUninterrupted(code.classes, FlowAt(code, s, id), s.Log(id), world, s.Seen(id));
  }

  /** With safe lease timing the same holds of every timely behaviour: nobody has to promise exclusion. */
  lemma CompletionUnderLeases(code: Code, cfg: Config, s: State, id: Id, p: nat, world: Oracle)
    requires Lease.SafeTiming(cfg) && Reachable(code, cfg, Timely(true), s)
    requires id in s.store.rows && p < |s.Log(id)| && s.Log(id)[p].WorkflowCompleted?
    requires Agrees(code.classes, s.Log(id), world)
    ensures var w := FlowAt(code, s, id);
      w(Uninterrupted(w, world, |s.Seen(id)|)) == Return(s.Log(id)[p].result)
  {
    hide Reachable, Agrees, FlowAt, Uninterrupted;
    Lease.LeaseExclusion(code, cfg, true, s);
    CompletionIsUninterrupted(code, cfg, s, id, p, world);
  }

  /** What is behind the trace is in a snapshot that knows of the completion. */
  lemma CompletedHistoryExplains(cs: Classes, w: Workflow, log: Log, seen: seq<Obs>, r: Run, p: nat)
    requires CompletionsOk(cs, w, log, seen) && KnowsCompletions(log, r) && !r.pc.Claimed?
    requires r.hist <= log && p < |log| && log[p].WorkflowCompleted?
    ensures w(seen) == Return(log[p].result) && Explains(cs, w, r.hist, seen)
  {
    assert p < |r.hist|;
    PrefixOfAppend(r.hist, log, p);
    ExplainsIsMonotone(cs, w, log[..p], r.hist, seen);
  }

  /**
   * A finished workflow that is woken by a late signal or child runs again without consequence: its
   * run starts no activity body and spawns no child, and all it can ever write is the same result
   * once more, with the signal to its parent.
   */
  lemma FinishedReRunIsHarmless(code: Code, cfg: Config, s: State, a: Action, p: nat)
    requires Reachable(code, cfg, Exclusive(true), s) && Enabled(code, s, a) && a.Progress?
    requires p < |s.Log(s.runs[a.rid].wf)| && s.Log(s.runs[a.rid].wf)[p].WorkflowCompleted?
    ensures var r := s.runs[a.rid];
      && !r.pc.BodyReady? && !r.pc.BodyRunning? && r.wf in s.store.rows
      && (TxOf(code, s, a) == NoTx ||
          TxOf(code, s, a) == Finish(r.wf, ChildCompleted(s.Log(r.wf)[p].result), ParentInfoOf(s.store.rows[r.wf], r.wf)))
  {
    hide Leads, Step, OutcomeInv;
    ReachableOutcomes(code, cfg, s);
    hide Reachable;
    FinishedStepIsHarmless(code, s, a, p);
  }

  lemma FinishedStepIsHarmless(code: Code, s: State, a: Action, p: nat)
    requires OutcomeInv(code, s) && Enabled(code, s, a) && a.Progress?
    requires p < |s.Log(s.runs[a.rid].wf)| && s.Log(s.runs[a.rid].wf)[p].WorkflowCompleted?
    ensures var r := s.runs[a.rid];
      && !r.pc.BodyReady? && !r.pc.BodyRunning? && r.wf in s.store.rows
      && (TxOf(code, s, a) == NoTx ||
          TxOf(code, s, a) == Finish(r.wf, ChildCompleted(s.Log(r.wf)[p].result), ParentInfoOf(s.store.rows[r.wf], r.wf)))
  {
    var r := s.runs[a.rid];
    var w := FlowAt(code, s, r.wf);
    assert RunOk(code, s.store, r) && RunOnTrace(code, s, r) && WorkflowOk(code, s, r.wf) && KnowsCompletions(s.Log(r.wf), r);
    assert CompletionsOk(code.classes, w, s.Log(r.wf), s.Seen(r.wf));
    if !r.pc.Claimed? {
      StartOfHistory(s.store, r);
      assert StartedOk(s.store, r.wf);
      CompletedHistoryExplains(code.classes, w, s.Log(r.wf), s.Seen(r.wf), r, p);
      hide StoreInv, FamilyInv, ReplayInv, CompletionsOk, KnowsCompletions, Explains, ToJsonSafe, FromJsonSafe;
      hide SerializeArguments;
      FinishedRunReplays(code, w, s.Log(r.wf), s.Seen(r.wf), s.now, r);
      FinishedMove(code, s, w, r, a.choice);
    }
  }

  /** A run of a finished workflow has every step settled in its snapshot. */
  lemma FinishedRunReplays(code: Code, w: Workflow, log: Log, seen: seq<Obs>, now: Time, r: Run)
    requires WorkflowInv(code.classes, w, log, seen, now) && RunInv(w, log, seen, r) && !r.pc.Claimed?
    requires w(seen).Return? && Explains(code.classes, w, r.hist, seen)
    ensures r.pc.Deciding?
    ensures r.obs == seen || Lookup(code.classes, r.hist, r.At(), w(r.obs)).Some?
    ensures r.obs != seen && w(r.obs).Sleep? ==>
      First(r.hist, AtStep(r.At(), SleepingKind)).Some? && First(r.hist, AtStep(r.At(), SleepingKind)).value.wakeupAt <= now
  {
    assert r.obs == seen[..r.At()];
    assert |r.obs| == |seen| ==> r.obs == seen;
    if r.obs != seen {
      assert Lookup(code.classes, r.hist, r.At(), w(seen[..r.At()])) == Some(seen[r.At()]);
      if w(r.obs).Sleep? {
        FirstIsStable(r.hist, log, AtStep(r.At(), SleepingKind));
      }
    }
    hide First, Count, Explains;
  }

  lemma FinishedMove(code: Code, s: State, w: Workflow, r: Run, choice: Choice)
    requires CanStep(code, r, choice) && r.pc.Deciding? && w == FlowOfRun(code, r) && w(s.Seen(r.wf)).Return?
    requires r.obs == s.Seen(r.wf) || Lookup(code.classes, r.hist, r.At(), w(r.obs)).Some?
    requires r.obs != s.Seen(r.wf) && w(r.obs).Sleep? ==>
      First(r.hist, AtStep(r.At(), SleepingKind)).Some? && First(r.hist, AtStep(r.At(), SleepingKind)).value.wakeupAt <= s.now
    ensures var tx := MoveOf(code, s, r, choice).tx;
      tx == NoTx || tx == Finish(r.wf, ChildCompleted(w(s.Seen(r.wf)).result), ParentOf(First(r.hist, IsStarted)))
  {
    hide First, Count, FromJsonSafe, SerializeArguments, ToJsonSafe, ObsOf;
  }

  // ----- Sleeps -----

  /** What a log has on top of `from` counts its sleeps from a time between `since` and now. */
  ghost predicate SleepsSince(from: Log, log: Log, since: Time, now: Time) {
    && from <= log
    && forall k {:trigger log[k]} :: |from| <= k < |log| && log[k].Sleeping? ==> since <= log[k].timestamp <= now
  }

  lemma MoveSleepsFromNow(code: Code, s: State, r: Run, choice: Choice)
    requires CanStep(code, r, choice)
    ensures var tx := MoveOf(code, s, r, choice).tx; tx.WriteEvent? && tx.event.Sleeping? ==> tx.event.timestamp == s.now
  {
    hide First, Count, ChildId, SerializeArguments, ToJsonSafe, Lookup, Settles;
  }

  lemma SleepsAfter(code: Code, cfg: Config, s: State, a: Action, id: Id, from: Log, since: Time)
    requires FamilyInv(code, s) && Enabled(code, s, a) && since <= s.now && SleepsSince(from, s.Log(id), since, s.now)
    ensures var t := Apply(code, cfg, s, a); since <= t.now && SleepsSince(from, t.Log(id), since, t.now)
  {
    hide First, Step, Commit, StoreInv, GrewAside, AuditAfter, SeenAfter, OwnLog;
    RowsHaveLogs(code, s);
    hide FamilyInv;
    var t := Apply(code, cfg, s, a);
    ActionIsProper(code, s, a);
    if id !in s.store.rows {
      UnknownLog(s.store, s.now, cfg.lockDuration, TxOf(code, s, a), id);
    } else if Moves(s, a, id) {
      OwnLogIsCommitted(code, s, a, cfg.lockDuration);
      MoveSleepsFromNow(code, s, s.runs[a.rid], a.choice);
      OwnLogSleeps(s.store, s.Log(id), TxOf(code, s, a), s.now);
    } else {
      OthersGrewAside(code, s, a, id, s.now, cfg.lockDuration);
      AsideSleeps(s.Log(id), t.Log(id), t.now);
    }
  }

  lemma UnknownLog(s: Store, now: Time, lockDuration: Time, tx: Tx, id: Id)
    requires Valid(s, tx) && s.rows.Keys == s.logs.Keys && id !in s.rows
    ensures var log := Commit(s, now, lockDuration, tx).Log(id); log == [] || (|log| == 1 && log[0].Started?)
    ensures s.Log(id) == []
  {
    hide First;
  }

  lemma OwnLogSleeps(s: Store, log: Log, tx: Tx, now: Time)
    requires tx.WriteEvent? && tx.event.Sleeping? ==> tx.event.timestamp == now
    ensures SleepsSince(log, OwnLog(s, log, tx), now, now)
  {
  }

  lemma AsideSleeps(log: Log, more: Log, now: Time)
    requires GrewAside(log, more)
    ensures SleepsSince(log, more, now, now)
  {
  }

  lemma {:induction false} SleepsHold(
    code: Code, cfg: Config, sch: Schedule, s: State, acts: seq<Action>, id: Id, from: Log, since: Time)
    requires FamilyInv(code, s) && Legal(code, cfg, sch, s, acts)
    requires since <= s.now && SleepsSince(from, s.Log(id), since, s.now)
    ensures var t := Final(code, cfg, sch, s, acts); since <= t.now && SleepsSince(from, t.Log(id), since, t.now)
    decreases |acts|
  {
    hide Apply, Enabled, Permits, FamilyInv, SleepsSince;
    if acts != [] {
      ApplyKeepsFamily(code, cfg, s, acts[0]);
      SleepsAfter(code, cfg, s, acts[0], id, from, since);
      SleepsHold(code, cfg, sch, Apply(code, cfg, s, acts[0]), acts[1..], id, from, since);
    }
  }

  /**
   * A sleep is neither shortened nor restarted: a run is past a sleep of d only with one SLEEP event
   * for it in the log, whose wake-up time lies exactly d after the encounter that wrote it and is not
   * in the future, whatever signals woke the workflow in between and wherever a worker crashed. So
   * from any earlier state in which the sleep had not been met yet, at least d has passed.
   */
  lemma SleepServedInFull(code: Code, cfg: Config, u: State, s: State, rid: RunId, i: nat)
    requires Reachable(code, cfg, Exclusive(true), u) && Leads(code, cfg, Exclusive(true), u, s)
    requires rid in s.runs && s.runs[rid].wf in s.store.rows && !s.runs[rid].pc.Claimed?
    requires i < |s.runs[rid].obs| && FlowAt(code, s, s.runs[rid].wf)(s.runs[rid].obs[..i]).Sleep?
    ensures var r := s.runs[rid]; var d := FlowAt(code, s, r.wf)(r.obs[..i]).duration;
      var slept := First(s.Log(r.wf), AtStep(i, SleepingKind));
      && slept.Some? && Count(s.Log(r.wf), AtStep(i, SleepingKind)) == 1
      && slept.value.wakeupAt == slept.value.timestamp + d <= s.now
      && (Count(u.Log(r.wf), AtStep(i, SleepingKind)) == 0 ==> u.now <= slept.value.timestamp && u.now + d <= s.now)
  {
    hide Leads, FamilyInv, FlowAt, First, Count, WorkflowInv, SleepsSince, Legal, Final;
    var q, id := AtStep(i, SleepingKind), s.runs[rid].wf;
    ReachableReplay(code, cfg, u);
    hide Reachable;
    var acts := LeadsBy(code, cfg, Exclusive(true), u, s);
    ReplayHolds(code, cfg, u, acts);
    assert RunOnTrace(code, s, s.runs[rid]) && WorkflowOk(code, s, id);
    assert FamilyInv(code, u);
    hide ReplayInv;
    PassedSleepIsOver(code.classes, FlowAt(code, s, id), s.Log(id), s.Seen(id), s.now, s.runs[rid].obs, i);
    NoSleepsYet(u.Log(id), u.now);
    SleepsHold(code, cfg, Exclusive(true), u, acts, id, u.Log(id), u.now);
    if Count(u.Log(id), q) == 0 {
      SleptLater(u.Log(id), s.Log(id), u.now, s.now, q);
    }
  }

  lemma NoSleepsYet(log: Log, now: Time)
    ensures SleepsSince(log, log, now, now)
  {
  }

  lemma SleptLater(from: Log, log: Log, since: Time, now: Time, q: Query)
    requires SleepsSince(from, log, since, now) && Count(from, q) == 0 && First(log, q).Some?
    requires q.AtStep? && q.kind.SleepingKind?
    ensures since <= First(log, q).value.timestamp <= now
  {
    ScanIsExact(from, q);
    ScanIsExact(log, q);
    hide First, Count;
    assert forall j :: 0 <= j < |from| ==> from[j] in from && log[j] == from[j];
    var k :| 0 <= k < |log| && log[k] == First(log, q).value;
  }

  lemma PassedSleepIsOver(cs: Classes, w: Workflow, log: Log, seen: seq<Obs>, now: Time, obs: seq<Obs>, i: nat)
    requires WorkflowInv(cs, w, log, seen, now) && obs <= seen && i < |obs| && w(obs[..i]).Sleep?
    ensures var slept := First(log, AtStep(i, SleepingKind));
      && slept.Some? && Count(log, AtStep(i, SleepingKind)) == 1
      && slept.value.wakeupAt == slept.value.timestamp + w(obs[..i]).duration <= now
  {
    hide First, Count, Explains;
    var q := AtStep(i, SleepingKind);
    assert seen[..i] == obs[..i];
    ScanIsExact(log, q);
    var e := First(log, q).value;
    var p :| 0 <= p < |log| && log[p] == e;
    assert StepIndex(log[p]) == i;
    assert Count(log, AtStep(i, SleepingKind)) <= 1;
  }

  /**
   * No false divergence: an activity step that meets a SCHEDULED event in its history finds its own
   * name and arguments there, so under unchanged code no run ends at it with a DivergenceError.
   */
  lemma NoFalseDivergence(code: Code, cfg: Config, s: State, rid: RunId)
    requires Reachable(code, cfg, Exclusive(true), s)
    requires rid in s.runs && s.runs[rid].pc.Deciding? && CommandOf(code, s.runs[rid]).Activity?
    ensures var r := s.runs[rid]; var c := CommandOf(code, r);
      var scheduled := First(r.hist, AtStep(r.At(), ScheduledKind));
      && (scheduled.Some? ==> scheduled.value == Scheduled(r.At(), c.name, SerializeArguments(c.call)))
      && Decide(code, s.now, r).next.Some?
  {
    hide Leads, StoreInv, FlowOf, First, Count, WorkflowInv, RunInv, SerializeArguments, FromJsonSafe;
    ReachableReplay(code, cfg, s);
    hide Reachable;
    var r := s.runs[rid];
    assert RunOk(code, s.store, r) && RunOnTrace(code, s, r) && WorkflowOk(code, s, r.wf) && StoreInv(s.store);
    StartOfHistory(s.store, r);
    if First(r.hist, AtStep(r.At(), ScheduledKind)).Some? {
      ScheduledMatches(code.classes, FlowOfRun(code, r), s.Log(r.wf), s.Seen(r.wf), s.now, r);
    }
  }

  // ----- The codec's part -----

  ghost predicate TypedOutcome(code: Code, s: State, a: Action) {
    a.Progress? && a.choice.Succeeds? && a.rid in s.runs && CommandOf(code, s.runs[a.rid]).Activity? ==>
      var ann := CommandOf(code, s.runs[a.rid]).annotation;
      Faithful(code.classes, ann) && WellTyped(code.classes, a.choice.value, ann)
  }

  ghost predicate TypedOutcomes(code: Code, cfg: Config, s: State, acts: seq<Action>)
    requires Legal(code, cfg, Exclusive(false), s, acts)
    decreases |acts|
  {
    acts != [] ==> TypedOutcome(code, s, acts[0]) && TypedOutcomes(code, cfg, Apply(code, cfg, s, acts[0]), acts[1..])
  }

  /**
   * What the theorems on replay assume of results, well-typed activities provide: if every body
   * returns a value of its annotated type, the behaviour is one in which every result is restorable.
   */
  lemma {:induction false} TypedActivitiesReplay(code: Code, cfg: Config, s: State, acts: seq<Action>)
    requires FaithfulClasses(code.classes)
    requires Legal(code, cfg, Exclusive(false), s, acts) && TypedOutcomes(code, cfg, s, acts)
    ensures Legal(code, cfg, Exclusive(true), s, acts)
    ensures Final(code, cfg, Exclusive(true), s, acts) == Final(code, cfg, Exclusive(false), s, acts)
    decreases |acts|
  {
    hide Apply, Enabled, FaithfulClasses, Faithful, WellTyped, FromJsonSafe, ToJsonSafe;
    if acts != [] {
      var a := acts[0];
      if a.Progress? && a.choice.Succeeds? && a.rid in s.runs && CommandOf(code, s.runs[a.rid]).Activity? {
        TypedRoundTrip(code.classes, a.choice.value, CommandOf(code, s.runs[a.rid]).annotation);
      }
      assert Permits(code, Exclusive(true), s, a);
      TypedActivitiesReplay(code, cfg, Apply(code, cfg, s, a), acts[1..]);
    }
  }
}
