/**
 * Changed code. A workflow is in flight, with an activity scheduled and not completed; workers are
 * restarted with other code. If that code replays the recorded trace and then calls something else at
 * the scheduled step, every later run of the workflow fails with a divergence and never runs a body.
 */
module Redeploy {
  import opened Wrappers
  import opened Ids
  import opened Serialization
  import opened Events
  import opened Transactions
  import opened Workflows
  import opened Machine
  import opened Cluster
  import opened Family
  import opened Replay
  import opened Transparency
  import opened Calls
  import Joins
  import opened Wakes

  // ----- What is deployed over what -----

  /** The flow is given the recorded trace by the log, and then asks for an activity: the scheduled, uncompleted step. */
  ghost predicate StillReplays(cs: Classes, flow: Workflow, log: Log, seen: seq<Obs>) {
    var n := |seen|;
    && Explains(cs, flow, log, seen) && flow(seen).Activity?
    && First(log, AtStep(n, ScheduledKind)).Some? && First(log, AtStep(n, CompletedKind)).None?
  }

  /** What the code calls at a step is not what its history says was called. */
  predicate Differs(log: Log, n: nat, c: Command) {
    && c.Activity?
    && match First(log, AtStep(n, ScheduledKind))
       case None => true
       case Some(e) => e.name != c.name || !SameJson(e.call, SerializeArguments(c.call))
  }

  /** The recorded sleeps of the trace are over. */
  ghost predicate SleepsElapsed(flow: Workflow, log: Log, seen: seq<Obs>, now: Time) {
    forall i {:trigger seen[..i]} :: 0 <= i < |seen| && flow(seen[..i]).Sleep? ==>
      First(log, AtStep(i, SleepingKind)).Some? && First(log, AtStep(i, SleepingKind)).value.wakeupAt <= now
  }

  /** A step that is now a sleep was one when it was recorded, so that it is over. */
  lemma OldSleepsElapsed(
    cs: Classes, oldFlow: Workflow, oldClasses: Classes, flow: Workflow, log: Log, seen: seq<Obs>, now: Time)
    requires WorkflowInv(oldClasses, oldFlow, log, seen, now) && Explains(cs, flow, log, seen)
    ensures SleepsElapsed(flow, log, seen, now)
  {
  }

  // ----- Runs of the new code -----

  /** A run that has loaded its history is on the recorded trace, or past all of it. */
  ghost predicate OnTrack(r: Run, base: Log, seen: seq<Obs>) {
    r.pc.Claimed? || (
      && base <= r.hist
      && (if |r.obs| < |seen| then r.obs <= seen && r.pc.Deciding? else seen <= r.obs))
  }

  ghost predicate RootInv(s: State) {
    StoreInv(s.store) && forall rid {:trigger s.runs[rid]} :: rid in s.runs ==> Rooted(s.store, s.runs[rid])
  }

  /** What holds of workflow `id` from the deployment on; `base` and `seen` are its log and trace at that moment. */
  ghost predicate Deployed(newer: Code, s: State, id: Id, flow: Workflow, base: Log, seen: seq<Obs>) {
    && RootInv(s)
    && id in s.store.rows && base <= s.Log(id) && First(base, IsStarted).Some?
    && FlowOf(newer, s.store.rows[id].name, First(base, IsStarted)) == flow
    && StillReplays(newer.classes, flow, base, seen) && SleepsElapsed(flow, base, seen, s.now)
    && forall rid {:trigger s.runs[rid]} :: rid in s.runs && s.runs[rid].wf == id ==> OnTrack(s.runs[rid], base, seen)
  }

  /** A loaded run drives the flow that was deployed. */
  lemma FlowOfTracked(newer: Code, s: State, r: Run, flow: Workflow, base: Log)
    requires Rooted(s.store, r) && base <= r.hist && First(base, IsStarted).Some?
    requires FlowOf(newer, s.store.rows[r.wf].name, First(base, IsStarted)) == flow
    ensures FlowOfRun(newer, r) == flow
  {
    FirstIsStable(base, r.hist, IsStarted);
  }

  /** A run short of the end of the trace is handed the next result of it. */
  lemma TraceMove(code: Code, s: State, r: Run, choice: Choice, flow: Workflow, base: Log, seen: seq<Obs>)
    requires CanStep(code, r, choice) && r.pc.Deciding? && flow == FlowOfRun(code, r)
    requires Explains(code.classes, flow, base, seen) && SleepsElapsed(flow, base, seen, s.now)
    requires base <= r.hist && r.obs <= seen && |r.obs| < |seen|
    ensures MoveOf(code, s, r, choice) == Move(NoTx, Some(r.Observe(seen[r.At()])))
    ensures r.obs + [seen[r.At()]] <= seen
  {
    assert r.obs == seen[..r.At()];
    ExplainsIsMonotone(code.classes, flow, base, r.hist, seen);
    assert Lookup(code.classes, r.hist, r.At(), flow(seen[..r.At()])) == Some(seen[r.At()]);
    if flow(r.obs).Sleep? {
      FirstIsStable(base, r.hist, AtStep(r.At(), SleepingKind));
    }
    hide Explains, First;
    SettledMove(code, s, r, choice, seen[r.At()]);
  }

  lemma SettledMove(code: Code, s: State, r: Run, choice: Choice, o: Obs)
    requires CanStep(code, r, choice) && r.pc.Deciding?
    requires Lookup(code.classes, r.hist, r.At(), CommandOf(code, r)) == Some(o)
    requires CommandOf(code, r).Sleep? ==>
      && First(r.hist, AtStep(r.At(), SleepingKind)).Some?
      && First(r.hist, AtStep(r.At(), SleepingKind)).value.wakeupAt <= s.now
    ensures MoveOf(code, s, r, choice) == Move(NoTx, Some(r.Observe(o)))
  {
    hide First, Count, FromJsonSafe, SerializeArguments, ToJsonSafe;
  }

  /** At the scheduled step, for as long as it is not completed. */
  lemma RescheduledMove(code: Code, s: State, r: Run, choice: Choice)
    requires CanStep(code, r, choice) && r.pc.Deciding? && CommandOf(code, r).Activity?
    requires First(r.hist, AtStep(r.At(), ScheduledKind)).Some? && First(r.hist, AtStep(r.At(), CompletedKind)).None?
    ensures MoveOf(code, s, r, choice) ==
      if Differs(r.hist, r.At(), CommandOf(code, r)) then
        Move(Finish(r.wf, ChildFailed(Diverged(r.At())), ParentOf(First(r.hist, IsStarted))), None)
      else Move(NoTx, Some(r.(pc := BodyReady)))
  {
    hide First, Count, FromJsonSafe, SerializeArguments, ToJsonSafe;
  }

  /** At the scheduled step, once it is completed: another run of the unchanged call has done it. */
  lemma CompletedMove(code: Code, s: State, r: Run, choice: Choice)
    requires CanStep(code, r, choice) && r.pc.Deciding? && CommandOf(code, r).Activity?
    requires First(r.hist, AtStep(r.At(), CompletedKind)).Some?
    ensures MoveOf(code, s, r, choice).next.Some? && MoveOf(code, s, r, choice).tx == NoTx
  {
    hide First, Count, FromJsonSafe, SerializeArguments, ToJsonSafe;
  }

  lemma TrackedMove(newer: Code, s: State, id: Id, flow: Workflow, base: Log, seen: seq<Obs>, r: Run, choice: Choice)
    requires Deployed(newer, s, id, flow, base, seen) && Rooted(s.store, r) && r.wf == id && OnTrack(r, base, seen)
    requires CanStep(newer, r, choice) && MoveOf(newer, s, r, choice).next.Some?
    ensures OnTrack(MoveOf(newer, s, r, choice).next.value, base, seen)
  {
    hide StoreInv, First, FlowOf, Explains;
    Joins.ObservesFirst(newer, s, r, choice);
    NextFits(newer, s, r, choice);
    if !r.pc.Claimed? {
      FlowOfTracked(newer, s, r, flow, base);
      if |r.obs| < |seen| {
        TraceMove(newer, s, r, choice, flow, base, seen);
      }
    } else {
      assert MoveOf(newer, s, r, choice).next.value.pc.Deciding?;
    }
  }

  // ----- Every action keeps it -----

  lemma RootedAction(code: Code, s: State, a: Action)
    requires RootInv(s) && Enabled(code, s, a)
    ensures Valid(s.store, TxOf(code, s, a)) && Proper(s.store, TxOf(code, s, a)) && s.store.rows.Keys == s.store.logs.Keys
  {
    hide Step, Commit, First;
    if a.Progress? {
      hide StoreInv;
      RootedMovesAreProper(code, s, s.runs[a.rid], a.choice);
      RowsAndLogs(s.store);
    }
  }

  lemma RowsAndLogs(s: Store)
    requires StoreInv(s)
    ensures s.rows.Keys == s.logs.Keys
  {
  }

  lemma ApplyKeepsRoots(code: Code, cfg: Config, s: State, a: Action)
    requires RootInv(s) && Enabled(code, s, a)
    ensures RootInv(Apply(code, cfg, s, a)) && Grows(s.store, Apply(code, cfg, s, a).store)
  {
    hide Step, Commit, First, StoreInv, Proper, Valid, AuditAfter, SeenAfter, FlowOf, RootId, Row.Claimable;
    var t := Apply(code, cfg, s, a);
    RowsAndLogs(s.store);
    RootedAction(code, s, a);
    CommitKeepsStoreInv(s.store, s.now, cfg.lockDuration, TxOf(code, s, a));
    CommitGrows(s.store, s.now, cfg.lockDuration, TxOf(code, s, a));
    RowsAndLogs(t.store);
    if a.Progress? && MoveOf(code, s, s.runs[a.rid], a.choice).next.Some? {
      NextFits(code, s, s.runs[a.rid], a.choice);
      LoadedIsNotEmpty(s.store, s.runs[a.rid]);
    }
    forall rid | rid in t.runs
      ensures Rooted(t.store, t.runs[rid])
    {
      if rid in s.runs {
        assert Rooted(s.store, s.runs[rid]);
        assert s.store.logs[s.runs[rid].wf] <= t.store.logs[s.runs[rid].wf];
      }
    }
  }

  lemma LoadedIsNotEmpty(s: Store, r: Run)
    requires StoreInv(s) && Rooted(s, r)
    ensures s.logs[r.wf] != []
  {
    assert StartedOk(s, r.wf);
  }

  lemma ApplyKeepsDeployed(newer: Code, cfg: Config, s: State, a: Action, id: Id, flow: Workflow, base: Log, seen: seq<Obs>)
    requires Deployed(newer, s, id, flow, base, seen) && Enabled(newer, s, a)
    ensures Deployed(newer, Apply(newer, cfg, s, a), id, flow, base, seen)
    ensures s.store.Has(id) && s.Log(id) <= Apply(newer, cfg, s, a).Log(id)
  {
    hide Step, Commit, First, StoreInv, FlowOf, Explains, AuditAfter, SeenAfter, Proper, Valid, OnTrack;
    var t := Apply(newer, cfg, s, a);
    ApplyKeepsRoots(newer, cfg, s, a);
    RootedAction(newer, s, a);
    if a.Progress? {
      MoveShape(newer, s, s.runs[a.rid], a.choice);
    }
    forall rid | rid in t.runs && t.runs[rid].wf == id
      ensures OnTrack(t.runs[rid], base, seen)
    {
      if rid in s.runs && a.Progress? && a.rid == rid {
        TrackedMove(newer, s, id, flow, base, seen, s.runs[rid], a.choice);
      } else if rid in s.runs {
        BeatKeepsTrack(s.runs[rid], t.runs[rid], base, seen);
      } else {
        ClaimedIsOnTrack(t.runs[rid], base, seen);
      }
    }
  }

  lemma BeatKeepsTrack(r: Run, r': Run, base: Log, seen: seq<Obs>)
    requires OnTrack(r, base, seen) && r' == r.(due := r'.due)
    ensures OnTrack(r', base, seen)
  {
  }

  lemma ClaimedIsOnTrack(r: Run, base: Log, seen: seq<Obs>)
    requires r.pc.Claimed?
    ensures OnTrack(r, base, seen)
  {
  }

  // ----- Where the call has changed -----

  /** Since then only others have written to the log, and runs that reported this divergence. */
  ghost predicate GrewHalted(base: Log, more: Log, n: nat) {
    && base <= more
    && forall p {:trigger more[p]} :: |base| <= p < |more| ==> FromOutside(more[p]) || more[p] == WorkflowFailed(Diverged(n))
  }

  ghost predicate NoneBegun(s: State, id: Id, begun: multiset<(Id, nat)>) {
    forall j: nat :: s.audit.begun[(id, j)] == begun[(id, j)]
  }

  /** A run that has not got past the trace. */
  predicate Replaying(r: Run, seen: seq<Obs>) {
    r.pc.Claimed? || (r.pc.Deciding? && r.obs <= seen)
  }

  ghost predicate Halted(
    newer: Code, s: State, id: Id, flow: Workflow, base: Log, seen: seq<Obs>, begun: multiset<(Id, nat)>)
  {
    && Deployed(newer, s, id, flow, base, seen)
    && Differs(base, |seen|, flow(seen))
    && GrewHalted(base, s.Log(id), |seen|) && NoneBegun(s, id, begun)
    && forall rid {:trigger s.runs[rid]} :: rid in s.runs && s.runs[rid].wf == id ==> Replaying(s.runs[rid], seen)
  }

  lemma HaltedScans(base: Log, hist: Log, log: Log, n: nat, i: nat, kind: Kind)
    requires base <= hist <= log && GrewHalted(base, log, n)
    ensures First(hist, AtStep(i, kind)) == First(base, AtStep(i, kind))
  {
    forall p | |base| <= p < |hist|
      ensures !Matches(hist[p], AtStep(i, kind))
    {
      assert log[p] == hist[p];
    }
    ScanIgnores(base, hist, AtStep(i, kind));
  }

  lemma HaltedMove(
    newer: Code, s: State, id: Id, flow: Workflow, base: Log, seen: seq<Obs>, begun: multiset<(Id, nat)>,
    rid: RunId, choice: Choice)
    requires Halted(newer, s, id, flow, base, seen, begun) && rid in s.runs && s.runs[rid].wf == id
    requires CanStep(newer, s.runs[rid], choice)
    ensures var m := MoveOf(newer, s, s.runs[rid], choice);
      if m.next.Some? then m.tx == NoTx && Replaying(m.next.value, seen)
      else m.tx == Finish(id, ChildFailed(Diverged(|seen|)), ParentInfoOf(s.store.rows[id], id))
  {
    var r := s.runs[rid];
    assert Rooted(s.store, r) && OnTrack(r, base, seen) && Replaying(r, seen);
    hide StoreInv, First, FlowOf, Explains, SerializeArguments;
    if !r.pc.Claimed? {
      FlowOfTracked(newer, s, r, flow, base);
      RootedMovesAreProper(newer, s, r, choice);
      if |r.obs| < |seen| {
        hide Step;
        TraceMove(newer, s, r, choice, flow, base, seen);
      } else {
        assert r.obs == seen;
        HaltedScans(base, r.hist, s.Log(id), |seen|, |seen|, ScheduledKind);
        HaltedScans(base, r.hist, s.Log(id), |seen|, |seen|, CompletedKind);
        hide Step;
        RescheduledMove(newer, s, r, choice);
      }
    }
  }

  lemma HaltedLog(
    newer: Code, cfg: Config, s: State, a: Action, id: Id, flow: Workflow, base: Log, seen: seq<Obs>,
    begun: multiset<(Id, nat)>)
    requires Halted(newer, s, id, flow, base, seen, begun) && Enabled(newer, s, a)
    ensures GrewHalted(base, Apply(newer, cfg, s, a).Log(id), |seen|)
  {
    hide Step, Commit, First, StoreInv, FlowOf, Explains, AuditAfter, SeenAfter, SerializeArguments, OnTrack, Replaying;
    var tx := TxOf(newer, s, a);
    assert s.store.Has(id) by {
      RowsAndLogs(s.store);
    }
    RootedAction(newer, s, a);
    if Moves(s, a, id) {
      HaltedMove(newer, s, id, flow, base, seen, begun, a.rid, a.choice);
      if s.store.rows[id].parent.Some? {
        ParentIsAnother(s.store, id);
      }
      var m := MoveOf(newer, s, s.runs[a.rid], a.choice);
      assert m.next.None? ==> m.tx.Finish?;
      CommitOwnLog(s.store, s.now, cfg.lockDuration, tx, id);
    } else {
      if a.Progress? {
        MoveShape(newer, s, s.runs[a.rid], a.choice);
      }
      CommitFromOutside(s.store, s.now, cfg.lockDuration, tx, id);
    }
  }

  lemma HaltedBegins(
    newer: Code, cfg: Config, s: State, a: Action, id: Id, flow: Workflow, base: Log, seen: seq<Obs>,
    begun: multiset<(Id, nat)>)
    requires Halted(newer, s, id, flow, base, seen, begun) && Enabled(newer, s, a)
    ensures NoneBegun(Apply(newer, cfg, s, a), id, begun)
  {
    hide Step, Commit, First, StoreInv, FlowOf, Explains, SeenAfter, SerializeArguments, OnTrack, GrewHalted, PcFits;
    if a.Progress? && s.runs[a.rid].wf == id {
      assert Replaying(s.runs[a.rid], seen);
    }
  }

  lemma ApplyKeepsHalted(
    newer: Code, cfg: Config, s: State, a: Action, id: Id, flow: Workflow, base: Log, seen: seq<Obs>,
    begun: multiset<(Id, nat)>)
    requires Halted(newer, s, id, flow, base, seen, begun) && Enabled(newer, s, a)
    ensures Halted(newer, Apply(newer, cfg, s, a), id, flow, base, seen, begun)
  {
    hide Step, Commit, First, Deployed, AuditAfter, SeenAfter, GrewHalted, NoneBegun, Differs;
    var t := Apply(newer, cfg, s, a);
    HaltedLog(newer, cfg, s, a, id, flow, base, seen, begun);
    HaltedBegins(newer, cfg, s, a, id, flow, base, seen, begun);
    ApplyKeepsDeployed(newer, cfg, s, a, id, flow, base, seen);
    forall rid | rid in t.runs && t.runs[rid].wf == id
      ensures Replaying(t.runs[rid], seen)
    {
      if rid in s.runs && a.Progress? && a.rid == rid {
        MoveShape(newer, s, s.runs[rid], a.choice);
        HaltedMove(newer, s, id, flow, base, seen, begun, rid, a.choice);
      } else if rid in s.runs {
        assert Replaying(s.runs[rid], seen);
      }
    }
  }

  lemma {:induction false} HaltedHolds(
    newer: Code, cfg: Config, sch: Schedule, s: State, acts: seq<Action>, id: Id, flow: Workflow, base: Log,
    seen: seq<Obs>, begun: multiset<(Id, nat)>)
    requires Halted(newer, s, id, flow, base, seen, begun) && Legal(newer, cfg, sch, s, acts)
    ensures Halted(newer, Final(newer, cfg, sch, s, acts), id, flow, base, seen, begun)
    decreases |acts|
  {
    hide Apply, Enabled, Permits, Halted;
    if acts != [] {
      ApplyKeepsHalted(newer, cfg, s, acts[0], id, flow, base, seen, begun);
      HaltedHolds(newer, cfg, sch, Apply(newer, cfg, s, acts[0]), acts[1..], id, flow, base, seen, begun);
    }
  }

  lemma {:induction false} DeployedHolds(
    newer: Code, cfg: Config, sch: Schedule, s: State, acts: seq<Action>, id: Id, flow: Workflow, base: Log,
    seen: seq<Obs>)
    requires Deployed(newer, s, id, flow, base, seen) && Legal(newer, cfg, sch, s, acts)
    ensures Deployed(newer, Final(newer, cfg, sch, s, acts), id, flow, base, seen)
    decreases |acts|
  {
    hide Apply, Enabled, Permits, Deployed;
    if acts != [] {
      ApplyKeepsDeployed(newer, cfg, s, acts[0], id, flow, base, seen);
      DeployedHolds(newer, cfg, sch, Apply(newer, cfg, s, acts[0]), acts[1..], id, flow, base, seen);
    }
  }

  // ----- Main results -----

  /**
   * `s` is reached under the old code, with no run of `id` in progress; there the new code replays the
   * trace of `id` up to its scheduled, uncompleted step.
   */
  ghost predicate Redeployed(older: Code, newer: Code, cfg: Config, s: State, id: Id) {
    && Reachable(older, cfg, Exclusive(true), s) && id in s.store.rows && Idle(s, id)
    && StillReplays(newer.classes, FlowAt(newer, s, id), s.Log(id), s.Seen(id))
  }

  /** Code that asks for the very same commands up to that step does, if it restores results alike. */
  lemma SameCommandsStillReplay(older: Code, newer: Code, cfg: Config, s: State, id: Id)
    requires Reachable(older, cfg, Exclusive(true), s) && id in s.store.rows && newer.classes == older.classes
    requires var n, seen := |s.Seen(id)|, s.Seen(id);
      && (forall i {:trigger seen[..i]} :: 0 <= i < n ==> FlowAt(newer, s, id)(seen[..i]) == FlowAt(older, s, id)(seen[..i]))
      && FlowAt(newer, s, id)(seen).Activity?
      && First(s.Log(id), AtStep(n, ScheduledKind)).Some? && First(s.Log(id), AtStep(n, CompletedKind)).None?
    ensures StillReplays(newer.classes, FlowAt(newer, s, id), s.Log(id), s.Seen(id))
  {
    hide Leads, First, FlowAt, FamilyInv, Lookup;
    ReachableReplay(older, cfg, s);
    hide Reachable;
    assert WorkflowOk(older, s, id);
  }

  lemma DeployedStart(older: Code, newer: Code, cfg: Config, s: State, id: Id)
    requires Redeployed(older, newer, cfg, s, id)
    ensures Deployed(newer, s, id, FlowAt(newer, s, id), s.Log(id), s.Seen(id))
  {
    hide Leads, StoreInv, Explains, First, FlowOf, WorkflowInv;
    ReachableReplay(older, cfg, s);
    hide Reachable;
    assert WorkflowOk(older, s, id) && FamilyInv(older, s);
    forall rid | rid in s.runs
      ensures Rooted(s.store, s.runs[rid])
    {
      assert RunOk(older, s.store, s.runs[rid]);
    }
    StartIsThere(s, id);
    OldSleepsElapsed(newer.classes, FlowAt(older, s, id), older.classes, FlowAt(newer, s, id), s.Log(id), s.Seen(id), s.now);
  }

  lemma StartIsThere(s: State, id: Id)
    requires StoreInv(s.store) && id in s.store.rows
    ensures First(s.Log(id), IsStarted).Some?
  {
    assert StartedOk(s.store, id);
  }

  /** Both are activity calls, with keyword arguments of distinct names. */
  ghost predicate AreCalls(c: Command, d: Command) {
    c.Activity? && d.Activity? && IsCall(c.call) && IsCall(d.call)
  }

  /** Another activity, or other arguments. */
  ghost predicate CallChanged(c: Command, d: Command) {
    c.Activity? && d.Activity? && (c.name != d.name || !SameCall(c.call, d.call))
  }

  /** What the payloads of the old call and the new differ in is the activity or the arguments. */
  lemma ChangedIsDiffering(older: Code, newer: Code, cfg: Config, s: State, id: Id)
    requires Redeployed(older, newer, cfg, s, id)
    ensures var c, d := FlowAt(older, s, id)(s.Seen(id)), FlowAt(newer, s, id)(s.Seen(id));
      && c.Activity? && d.Activity?
      && (AreCalls(c, d) ==> (Differs(s.Log(id), |s.Seen(id)|, d) <==> CallChanged(c, d)))
  {
    hide Leads, StoreInv, First, FlowAt, SerializeArguments, SameCall, FamilyInv;
    ReachableReplay(older, cfg, s);
    hide Reachable;
    assert WorkflowOk(older, s, id);
    hide ReplayInv;
    var n, log := |s.Seen(id)|, s.Log(id);
    var c, d := FlowAt(older, s, id)(s.Seen(id)), FlowAt(newer, s, id)(s.Seen(id));
    var e := First(log, AtStep(n, ScheduledKind)).value;
    ScanIsExact(log, AtStep(n, ScheduledKind));
    var p :| 0 <= p < |log| && log[p] == e;
    assert StepIndex(log[p]) == n && s.Seen(id)[..n] == s.Seen(id);
    if AreCalls(c, d) {
      ComparedByArguments(c.call, d.call);
    }
  }

  /** A run of the workflow makes this move, and ends with it. */
  predicate EndsRunOf(code: Code, cfg: Config, t: State, a: Action, id: Id)
    requires Enabled(code, t, a)
  {
    Moves(t, a, id) && a.rid !in Apply(code, cfg, t, a).runs
  }

  /** The move fails the workflow with the divergence at step `n`, and tells the parent in its row. */
  predicate EndsDiverged(code: Code, cfg: Config, t: State, a: Action, id: Id, n: nat)
    requires Enabled(code, t, a)
  {
    && id in t.store.rows
    && TxOf(code, t, a) == Finish(id, ChildFailed(Diverged(n)), ParentInfoOf(t.store.rows[id], id))
    && id in Apply(code, cfg, t, a).store.rows && Apply(code, cfg, t, a).store.rows[id].status == FAILED
  }

  /**
   * Detection. If the new code calls another activity or other arguments at the scheduled step, then
   * over every behaviour from there, under any schedule, no body of the workflow is started at any step;
   * its log grows by nothing but what comes from outside and reports of this divergence; a run of it can
   * always go on; and one that ends ends by failing the workflow with the divergence.
   */
  lemma ChangedStepIsDetected(older: Code, newer: Code, cfg: Config, sch: Schedule, s: State, t: State, id: Id)
    requires Redeployed(older, newer, cfg, s, id) && Leads(newer, cfg, sch, s, t)
    requires Differs(s.Log(id), |s.Seen(id)|, FlowAt(newer, s, id)(s.Seen(id)))
    ensures forall j: nat :: t.audit.begun[(id, j)] == s.audit.begun[(id, j)]
    ensures GrewHalted(s.Log(id), t.Log(id), |s.Seen(id)|) && id in t.store.rows
    ensures forall rid :: rid in t.runs && t.runs[rid].wf == id ==> Enabled(newer, t, Progress(rid, Proceed))
    ensures forall a :: Enabled(newer, t, a) && EndsRunOf(newer, cfg, t, a, id) ==>
      EndsDiverged(newer, cfg, t, a, id, |s.Seen(id)|)
  {
    var flow, base, seen, begun := FlowAt(newer, s, id), s.Log(id), s.Seen(id), s.audit.begun;
    HaltedLater(older, newer, cfg, sch, s, t, id);
    hide Redeployed, Leads, FlowAt, Apply, Enabled, TxOf, Deployed, GrewHalted, Differs;
    assert id in t.store.rows by {
      HaltedHasRow(newer, t, id, flow, base, seen, begun);
    }
    forall rid | rid in t.runs && t.runs[rid].wf == id
      ensures Enabled(newer, t, Progress(rid, Proceed))
    {
      HaltedGoesOn(newer, t, id, flow, base, seen, begun, rid);
    }
    forall a | Enabled(newer, t, a) && EndsRunOf(newer, cfg, t, a, id)
      ensures EndsDiverged(newer, cfg, t, a, id, |seen|)
    {
      HaltedEnds(newer, cfg, t, id, flow, base, seen, begun, a);
    }
  }

  lemma HaltedLater(older: Code, newer: Code, cfg: Config, sch: Schedule, s: State, t: State, id: Id)
    requires Redeployed(older, newer, cfg, s, id) && Leads(newer, cfg, sch, s, t)
    requires Differs(s.Log(id), |s.Seen(id)|, FlowAt(newer, s, id)(s.Seen(id)))
    ensures Halted(newer, t, id, FlowAt(newer, s, id), s.Log(id), s.Seen(id), s.audit.begun)
  {
    hide Reachable, StillReplays, FlowAt, Legal, Final, Apply, Deployed, Leads, Enabled;
    var flow, base, seen, begun := FlowAt(newer, s, id), s.Log(id), s.Seen(id), s.audit.begun;
    DeployedStart(older, newer, cfg, s, id);
    assert Halted(newer, s, id, flow, base, seen, begun);
    hide Redeployed, Halted;
    var acts := LeadsBy(newer, cfg, sch, s, t);
    HaltedHolds(newer, cfg, sch, s, acts, id, flow, base, seen, begun);
  }

  lemma HaltedHasRow(
    newer: Code, s: State, id: Id, flow: Workflow, base: Log, seen: seq<Obs>, begun: multiset<(Id, nat)>)
    requires Halted(newer, s, id, flow, base, seen, begun)
    ensures id in s.store.rows
  {
    hide StillReplays, StoreInv, First;
  }

  lemma HaltedGoesOn(
    newer: Code, s: State, id: Id, flow: Workflow, base: Log, seen: seq<Obs>, begun: multiset<(Id, nat)>, rid: RunId)
    requires Halted(newer, s, id, flow, base, seen, begun) && rid in s.runs && s.runs[rid].wf == id
    ensures Enabled(newer, s, Progress(rid, Proceed))
  {
    hide Step, StoreInv, First, StillReplays, SleepsElapsed, GrewHalted, NoneBegun, Differs;
    assert Replaying(s.runs[rid], seen) && Rooted(s.store, s.runs[rid]);
    RootedMovesAreProper(newer, s, s.runs[rid], Proceed);
    hide Halted;
  }

  lemma HaltedEnds(
    newer: Code, cfg: Config, s: State, id: Id, flow: Workflow, base: Log, seen: seq<Obs>,
    begun: multiset<(Id, nat)>, a: Action)
    requires Halted(newer, s, id, flow, base, seen, begun) && id in s.store.rows
    requires Enabled(newer, s, a) && Moves(s, a, id) && a.rid !in Apply(newer, cfg, s, a).runs
    ensures TxOf(newer, s, a) == Finish(id, ChildFailed(Diverged(|seen|)), ParentInfoOf(s.store.rows[id], id))
    ensures id in Apply(newer, cfg, s, a).store.rows && Apply(newer, cfg, s, a).store.rows[id].status == FAILED
  {
    hide Step, Commit, First, StillReplays, SleepsElapsed, GrewHalted, NoneBegun, Differs, StoreInv, AuditAfter, SeenAfter;
    HaltedMove(newer, s, id, flow, base, seen, begun, a.rid, a.choice);
    if s.store.rows[id].parent.Some? {
      ParentIsAnother(s.store, id);
    }
    FailedAfter(s.store, s.now, cfg.lockDuration, TxOf(newer, s, a));
  }

  lemma FailedAfter(s: Store, now: Time, lockDuration: Time, tx: Tx)
    requires Valid(s, tx) && tx.Finish? && tx.outcome.ChildFailed?
    requires tx.parentInfo.Some? ==> tx.parentInfo.value.workflowId != tx.id
    ensures tx.id in Commit(s, now, lockDuration, tx).rows
    ensures Commit(s, now, lockDuration, tx).rows[tx.id].status == FAILED
  {
  }

  /**
   * Exactly then. Over every behaviour of the new code, a run of the workflow that comes to the scheduled
   * step has been given the recorded trace, and ends there with a divergence if and only if the call has
   * changed; otherwise it goes on, to the body or past it.
   */
  lemma DivergesExactlyIfChanged(
    older: Code, newer: Code, cfg: Config, sch: Schedule, s: State, t: State, id: Id, rid: RunId)
    requires Redeployed(older, newer, cfg, s, id) && Leads(newer, cfg, sch, s, t)
    requires rid in t.runs && t.runs[rid].wf == id && t.runs[rid].pc.Deciding? && t.runs[rid].At() == |s.Seen(id)|
    ensures t.runs[rid].obs == s.Seen(id) && id in t.store.rows && CanStep(newer, t.runs[rid], Proceed)
    ensures Differs(s.Log(id), |s.Seen(id)|, FlowAt(newer, s, id)(s.Seen(id))) <==>
      MoveOf(newer, t, t.runs[rid], Proceed) ==
      Move(Finish(id, ChildFailed(Diverged(|s.Seen(id)|)), ParentInfoOf(t.store.rows[id], id)), None)
    ensures !Differs(s.Log(id), |s.Seen(id)|, FlowAt(newer, s, id)(s.Seen(id))) ==>
      MoveOf(newer, t, t.runs[rid], Proceed).tx == NoTx && MoveOf(newer, t, t.runs[rid], Proceed).next.Some?
    ensures AreCalls(FlowAt(older, s, id)(s.Seen(id)), FlowAt(newer, s, id)(s.Seen(id))) ==>
      (CallChanged(FlowAt(older, s, id)(s.Seen(id)), FlowAt(newer, s, id)(s.Seen(id))) <==>
       MoveOf(newer, t, t.runs[rid], Proceed) ==
       Move(Finish(id, ChildFailed(Diverged(|s.Seen(id)|)), ParentInfoOf(t.store.rows[id], id)), None))
  {
    ChangedIsDiffering(older, newer, cfg, s, id);
    hide AreCalls, CallChanged;
    var flow, base, seen, begun := FlowAt(newer, s, id), s.Log(id), s.Seen(id), s.audit.begun;
    hide Leads, Legal, Final, Apply, FlowAt, Reachable, StillReplays, Deployed, Differs, Step;
    DeployedStart(older, newer, cfg, s, id);
    if Differs(base, |seen|, flow(seen)) {
      assert Halted(newer, s, id, flow, base, seen, begun);
    }
    var acts := LeadsBy(newer, cfg, sch, s, t);
    DeployedHolds(newer, cfg, sch, s, acts, id, flow, base, seen);
    TrackedIsThere(newer, t, id, flow, base, seen, rid);
    if Differs(base, |seen|, flow(seen)) {
      hide Halted;
      HaltedHolds(newer, cfg, sch, s, acts, id, flow, base, seen, begun);
      HaltedReports(newer, t, id, flow, base, seen, begun, rid);
    } else {
      UnchangedGoesOn(newer, t, id, flow, base, seen, rid);
    }
  }

  lemma TrackedIsThere(newer: Code, s: State, id: Id, flow: Workflow, base: Log, seen: seq<Obs>, rid: RunId)
    requires Deployed(newer, s, id, flow, base, seen)
    requires rid in s.runs && s.runs[rid].wf == id && s.runs[rid].pc.Deciding? && s.runs[rid].At() == |seen|
    ensures id in s.store.rows && s.runs[rid].obs == seen && CanStep(newer, s.runs[rid], Proceed)
  {
    hide StoreInv, First, StillReplays, FlowOf;
    assert OnTrack(s.runs[rid], base, seen);
  }

  lemma HaltedReports(
    newer: Code, s: State, id: Id, flow: Workflow, base: Log, seen: seq<Obs>, begun: multiset<(Id, nat)>, rid: RunId)
    requires Halted(newer, s, id, flow, base, seen, begun)
    requires rid in s.runs && s.runs[rid].wf == id && s.runs[rid].pc.Deciding? && s.runs[rid].obs == seen
    requires CanStep(newer, s.runs[rid], Proceed) && id in s.store.rows
    ensures MoveOf(newer, s, s.runs[rid], Proceed) ==
      Move(Finish(id, ChildFailed(Diverged(|seen|)), ParentInfoOf(s.store.rows[id], id)), None)
  {
    var r := s.runs[rid];
    HaltedMove(newer, s, id, flow, base, seen, begun, rid, Proceed);
    assert OnTrack(r, base, seen) && Rooted(s.store, r);
    hide StoreInv, First, FlowOf, Explains, SerializeArguments;
    FlowOfTracked(newer, s, r, flow, base);
    HaltedScans(base, r.hist, s.Log(id), |seen|, |seen|, ScheduledKind);
    HaltedScans(base, r.hist, s.Log(id), |seen|, |seen|, CompletedKind);
    hide Step;
    RescheduledMove(newer, s, r, Proceed);
  }

  lemma UnchangedGoesOn(newer: Code, s: State, id: Id, flow: Workflow, base: Log, seen: seq<Obs>, rid: RunId)
    requires Deployed(newer, s, id, flow, base, seen) && !Differs(base, |seen|, flow(seen))
    requires rid in s.runs && s.runs[rid].wf == id && s.runs[rid].pc.Deciding? && s.runs[rid].obs == seen
    requires CanStep(newer, s.runs[rid], Proceed)
    ensures var m := MoveOf(newer, s, s.runs[rid], Proceed); m.tx == NoTx && m.next.Some?
  {
    var r := s.runs[rid];
    assert OnTrack(r, base, seen) && Rooted(s.store, r);
    hide StoreInv, First, FlowOf, Explains, SerializeArguments, Step;
    FlowOfTracked(newer, s, r, flow, base);
    FirstIsStable(base, r.hist, AtStep(|seen|, ScheduledKind));
    if First(r.hist, AtStep(|seen|, CompletedKind)).Some? {
      CompletedMove(newer, s, r, Proceed);
    } else {
      RescheduledMove(newer, s, r, Proceed);
    }
  }
}
