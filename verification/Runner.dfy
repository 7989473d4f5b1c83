/**
 * The worker's side of a run: the runner and the primitives workflow code awaits, as they are written,
 * calling the database while the rest of the system goes on. Every method is proved to lead from the
 * state before the call to the state after it by legal steps of module Cluster, its own and other
 * parties', and to leave behind what the primitive is for.
 */
module Runner {
  import opened Wrappers
  import opened Ids
  import opened Serialization
  import opened Events
  import opened Transactions
  import opened Workflows
  import opened Machine
  import opened Cluster
  import opened Family
  import opened Steps
  import opened Calls
  import opened Contexts
  import opened Queries
  import Lease
  import Outcomes
  import Recording

  class System {
    const code: Code
    const cfg: Config
    const sch: Schedule
    const start: Time
    const db: Database
    var state: State                 // what the calls made so far amount to in the model
    var others: seq<seq<Action>>     // what the rest of the system attempts before each call of this run
    var bodies: seq<Choice>          // how the activity bodies to come end
    ghost var acts: seq<Action>

    ghost predicate Valid()
      reads this, db
    {
      && db.Valid() && db.lockDuration == cfg.lockDuration
      && db.Contents() == state.store && db.now == state.now
      && Reached(code, cfg, sch, start, acts, state)
    }

    constructor (code: Code, cfg: Config, sch: Schedule, start: Time, others: seq<seq<Action>>, bodies: seq<Choice>)
      ensures Valid() && fresh(db) && state == Init(start) && acts == []
    {
      this.code, this.cfg, this.sch, this.start := code, cfg, sch, start;
      db := new Database(cfg.lockDuration, start);
      state, acts := Init(start), [];
      this.others, this.bodies := others, bodies;
      new;
      InitFamily(code, start);
    }

    // ----- From before a call to after it -----

    /** The way from one state to the other is a behaviour of the model, and the store has only grown. */
    twostate predicate Leading()
      reads this
    {
      Leads(code, cfg, sch, old(state), state) && Grows(old(state.store), state.store) && old(state.now) <= state.now
    }

    /** This run's own steps and other parties' actions lead from the state before the call to the one after. */
    twostate predicate Onward(rid: RunId)
      reads this
    {
      Leading() && Extends(old(acts), acts, rid)
    }

    /** Only others have acted, and the run is as it was. */
    twostate predicate Undisturbed(rid: RunId)
      reads this
    {
      && rid in old(state.runs) && rid in state.runs
      && state.runs[rid] == old(state.runs[rid]).(due := state.runs[rid].due)
      && Grows(old(state.store), state.store) && old(state.now) <= state.now
      && OthersOnly(old(acts), acts, rid) && bodies == old(bodies)
    }

    twostate lemma GoesOn()
      requires old(Valid()) && Valid() && old(acts) <= acts
      ensures Leading()
    {
      RecordLeadsOn(code, cfg, sch, start, old(acts), old(state), acts, state);
    }

    // ----- The tables of the system -----

    /** What is proved of reachable states is proved of the tables of this system, whatever its schedule. */
    lemma TablesAreReachable()
      requires Valid()
      ensures db.Contents() == state.store && Reachable(code, cfg, sch, state) && Reachable(code, cfg, AnySchedule, state)
      ensures sch.Timely? && Lease.SafeTiming(cfg) ==> Reachable(code, cfg, Exclusive(sch.restorable), state)
    {
      hide Legal, Final, FamilyInv, Leads, Reachable, TheStore;
      RecordIsReachable(code, cfg, sch, start, acts, state);
      ReachableAnyway(code, cfg, sch, state);
      if sch.Timely? && Lease.SafeTiming(cfg) {
        Lease.LeaseExclusion(code, cfg, sch.restorable, state);
      }
    }

    /** One delivery per terminal event, and one child per spawn, in the tables of every system. */
    lemma TablesAreConserved()
      requires Valid()
      ensures forall p, c :: p in db.workflows && IsChildOf(db.Contents(), c, p) ==>
        && Count(db.Contents().Log(p), ChildResult(c)) == Count(db.Contents().Log(c), Terminal)
        && FirstDelivery(db.Contents().Log(p), c) == FirstOutcome(db.Contents().Log(c))
      ensures forall p, i: nat :: p in db.workflows ==>
        Count(db.Contents().Log(p), AtStep(i, ChildStartedKind)) == if ChildId(p, i) in db.workflows then 1 else 0
    {
      hide First, Count, FirstDelivery, FirstOutcome, TheStore, ChildId, Reached, Leads, Reachable;
      db.Tables();
      TablesAreReachable();
      CompletionIsConserved(code, cfg, state);
      OneChildPerSpawnSite(code, cfg, state);
    }

    /** The schedules that replay is proved for: exclusion is given, or follows from the timing of leases. */
    predicate ReplaySafe() {
      Promises(sch) && (sch.Exclusive? || (sch.Timely? && Lease.SafeTiming(cfg)))
    }

    ghost predicate CompletesAt(id: Id, p: nat)
      reads this, db
    {
      p < |db.Contents().Log(id)| && db.Contents().Log(id)[p].WorkflowCompleted?
    }

    /**
     * Replay in the tables: a workflow's log records each step once and tells one trace, and a
     * completed workflow has the result its code returns when it is executed without the engine.
     */
    lemma TablesReplay(id: Id, i: nat, p: nat, world: Oracle)
      requires Valid() && ReplaySafe() && id in db.workflows
      ensures var log := db.Contents().Log(id);
        && Count(log, AtStep(i, ScheduledKind)) <= 1 && Count(log, AtStep(i, CompletedKind)) <= 1
        && Count(log, AtStep(i, SleepingKind)) <= 1 && Count(log, AtStep(i, ChildStartedKind)) <= 1
      ensures Outcomes.OnlyTrace(code.classes, FlowAt(code, state, id), db.Contents().Log(id), state.Seen(id))
      ensures CompletesAt(id, p) && Agrees(code.classes, db.Contents().Log(id), world) ==>
        var w := FlowAt(code, state, id);
        w(Uninterrupted(w, world, |state.Seen(id)|)) == Return(db.Contents().Log(id)[p].result)
    {
      hide First, Count, TheStore, Reached, Leads, Reachable, Lease.SafeTiming, Agrees, FlowAt, Outcomes.OnlyTrace;
      db.Tables();
      TablesAreReachable();
      assert Reachable(code, cfg, Exclusive(true), state);
      Recording.StepsAreRecordedOnce(code, cfg, true, state, id, i);
      LeadsNowhere(code, cfg, Exclusive(true), state);
      Outcomes.CrashTransparency(code, cfg, state, state);
      var log := state.Log(id);
      if CompletesAt(id, p) && Agrees(code.classes, log, world) {
        Outcomes.CompletionIsUninterrupted(code, cfg, state, id, p, world);
      }
    }

    // ----- Others -----

    /** What somebody else does, if it is possible now. */
    method Attempt(a: Action)
      requires Valid()
      modifies this`state, this`acts, db
      ensures Valid() && Grows(old(state.store), state.store) && old(state.now) <= state.now
      ensures if Enabled(code, old(state), a) && Permits(code, sch, old(state), a)
              then state == Apply(code, cfg, old(state), a) && acts == old(acts) + [a]
              else state == old(state) && acts == old(acts)
    {
      hide Reached, Legal, FamilyInv, Apply, Enabled, Permits, TheStore, Commit;
      if Enabled(code, state, a) && Permits(code, sch, state, a) {
        ReachedFamily(code, cfg, sch, start, acts, state);
        ForeignStep(code, cfg, state, a);
        ReachNext(code, cfg, sch, start, acts, state, a);
        db.Perform(TxOf(code, state, a));
        if a.Tick? {
          db.Tick(a.elapsed);
        }
        state, acts := Apply(code, cfg, state, a), acts + [a];
      }
    }

    /** The rest of the system: any signals, claims, heartbeats, crashes, ticks and steps of other runs. */
    method Interfere(rid: RunId)
      requires Valid() && rid in state.runs
      modifies this`state, this`others, this`acts, db
      ensures Valid() && Undisturbed(rid)
    {
      hide Reached, Legal, FamilyInv, Apply, Enabled, Permits, TheStore, Commit;
      if others == [] {
        return;
      }
      var batch := others[0];
      others := others[1..];
      for k := 0 to |batch|
        invariant Valid() && Undisturbed(rid)
      {
        ghost var before := state;
        if Foreign(batch[k], rid) {
          Attempt(batch[k]);
          if state != before {
            ForeignRun(code, cfg, before, batch[k], rid);
          }
          GrowsTwice(old(state.store), before.store, state.store);
        }
      }
    }

    // ----- One step of this run -----

    /** The model follows a step this run has just made. */
    method Follow(rid: RunId, choice: Choice)
      requires db.Valid() && db.lockDuration == cfg.lockDuration
      requires Reached(code, cfg, sch, start, acts, state) && FamilyInv(code, state) && rid in state.runs
      requires CanStep(code, state.runs[rid], choice)
      requires choice.Succeeds? ==> Permits(code, sch, state, Progress(rid, choice))
      requires db.now == state.now && Transactions.Valid(state.store, MoveOf(code, state, state.runs[rid], choice).tx)
      requires db.Contents() ==
        Commit(state.store, state.now, cfg.lockDuration, MoveOf(code, state, state.runs[rid], choice).tx)
      modifies this`state, this`acts
      ensures Valid() && acts == old(acts) + [Progress(rid, choice)]
      ensures state == Apply(code, cfg, old(state), Progress(rid, choice))
      ensures Stepped(cfg, old(state), rid, old(MoveOf(code, state, state.runs[rid], choice)), state)
      ensures Grows(old(state.store), state.store)
    {
      hide Reached, Legal, FamilyInv, Apply, Permits, TheStore, Commit, Step;
      OwnStep(code, cfg, sch, state, rid, choice);
      ReachNext(code, cfg, sch, start, acts, state, Progress(rid, choice));
      state, acts := Apply(code, cfg, state, Progress(rid, choice)), acts + [Progress(rid, choice)];
    }

    /** The run is at this point, with the given results behind it and `ctx` in its memory. */
    ghost predicate At(rid: RunId, ctx: WorkflowContext, flow: Workflow, obs: seq<Obs>, pc: Pc)
      reads this, ctx
    {
      && rid in state.runs
      && var r := state.runs[rid];
        && r.wf == ctx.workflowId && r.hist == ctx.eventHistory && r.obs == obs && r.pc == pc
        && ParentOf(First(r.hist, IsStarted)) == ctx.parentInfo && FlowOfRun(code, r) == flow
    }

    /** A step without a database call. */
    method Local(rid: RunId, ghost next: Run)
      requires Valid() && rid in state.runs && CanStep(code, state.runs[rid], Proceed)
      requires MoveOf(code, state, state.runs[rid], Proceed) == Move(NoTx, Some(next))
      modifies this`state, this`acts
      ensures Valid() && rid in state.runs && state.runs[rid] == next
      ensures state.store == old(state.store) && state.now == old(state.now)
      ensures acts == old(acts) + [Progress(rid, Proceed)]
    {
      hide Reached, Legal, FamilyInv, Apply, Permits, TheStore, Step, First;
      ReachedFamily(code, cfg, sch, start, acts, state);
      OwnStep(code, cfg, sch, state, rid, Proceed);
      Follow(rid, Proceed);
    }

    /** A step that writes one event. */
    method Write(rid: RunId, choice: Choice, id: Id, event: Event, ghost next: Run)
      requires Valid() && rid in state.runs && id == state.runs[rid].wf && CanStep(code, state.runs[rid], choice)
      requires choice.Succeeds? ==> Permits(code, sch, state, Progress(rid, choice))
      requires MoveOf(code, state, state.runs[rid], choice) == Move(WriteEvent(id, event), Some(next))
      modifies this`state, this`acts, db
      ensures Valid() && rid in state.runs && state.runs[rid] == next
      ensures acts == old(acts) + [Progress(rid, choice)]
      ensures state.Log(id) == old(state.Log(id)) + [event] && state.now == old(state.now)
      ensures Grows(old(state.store), state.store)
    {
      hide Reached, Legal, FamilyInv, Apply, Permits, TheStore, Step, First, Commit, Grows;
      ReachedFamily(code, cfg, sch, start, acts, state);
      OwnStep(code, cfg, sch, state, rid, choice);
      db.Tables();
      db.WriteEvent(id, event);
      Follow(rid, choice);
    }

    /** The run is over and its row released. */
    ghost predicate Over(rid: RunId, id: Id)
      reads this
    {
      && rid !in state.runs && id in state.store.rows
      && state.store.rows[id].lockedBy.None? && state.store.rows[id].lockedUntil.None?
    }

    /** A step that suspends the run until a time. */
    method Reschedule(rid: RunId, id: Id, runAt: Time)
      requires Valid() && rid in state.runs && id == state.runs[rid].wf && CanStep(code, state.runs[rid], Proceed)
      requires MoveOf(code, state, state.runs[rid], Proceed) == Move(Tx.Reschedule(id, runAt), None)
      modifies this`state, this`acts, db
      ensures Valid() && Over(rid, id) && state.store.rows[id].runAt == runAt
      ensures state.Log(id) == old(state.Log(id)) && state.now == old(state.now)
      ensures Grows(old(state.store), state.store) && acts == old(acts) + [Progress(rid, Proceed)]
    {
      hide Reached, Legal, FamilyInv, Apply, Permits, TheStore, Step, First, Commit, Grows;
      ReachedFamily(code, cfg, sch, start, acts, state);
      OwnStep(code, cfg, sch, state, rid, Proceed);
      db.Tables();
      db.UpdateWorkflowRunAt(id, runAt);
      Follow(rid, Proceed);
    }

    /** The workflow has ended with this outcome, as the last event of its log says. */
    ghost predicate Ended(rid: RunId, id: Id, outcome: ChildOutcome)
      reads this
    {
      && Over(rid, id) && state.store.rows[id].status == TerminalStatus(outcome)
      && state.Log(id) != [] && state.Log(id)[|state.Log(id)| - 1] == TerminalEvent(outcome)
    }

    /** The parent, if there is one, has been told and woken. */
    ghost predicate Delivered(outcome: ChildOutcome, parentInfo: Option<ParentInfo>)
      reads this
    {
      parentInfo.Some? ==>
        var p, log := parentInfo.value.workflowId, state.Log(parentInfo.value.workflowId);
        && p in state.store.rows && state.store.rows[p].status == RUNNING && state.store.rows[p].runAt == state.now
        && log != [] && log[|log| - 1] == ChildSignal(parentInfo.value.childId, outcome)
    }

    /** `complete_workflow` and `fail_workflow`. */
    method Terminate(rid: RunId, id: Id, outcome: ChildOutcome, parentInfo: Option<ParentInfo>)
      requires Valid() && rid in state.runs && id == state.runs[rid].wf && CanStep(code, state.runs[rid], Proceed)
      requires MoveOf(code, state, state.runs[rid], Proceed) == Move(Finish(id, outcome, parentInfo), None)
      modifies this`state, this`acts, db
      ensures Valid() && Ended(rid, id, outcome) && Delivered(outcome, parentInfo)
      ensures state.Log(id) == old(state.Log(id)) + [TerminalEvent(outcome)] && state.now == old(state.now)
      ensures Grows(old(state.store), state.store) && acts == old(acts) + [Progress(rid, Proceed)]
    {
      hide Reached, Legal, FamilyInv, Apply, Permits, TheStore, Step, First, Commit, Grows;
      ReachedFamily(code, cfg, sch, start, acts, state);
      OwnStep(code, cfg, sch, state, rid, Proceed);
      FinishDelivers(code, cfg, state, rid, outcome, parentInfo);
      db.Tables();
      db.WriteTerminalWorkflowEvent(id, outcome, parentInfo);
      Follow(rid, Proceed);
    }

    // ----- The primitives -----

    /** After a failure the row is due again after the backoff, or failed for good once retries are used up. */
    ghost predicate Concluded(id: Id, name: string, policy: Policy, error: string, failedAttempts: nat)
      reads this
    {
      && id in state.store.rows
      && if failedAttempts + 1 <= policy.maxRetries then state.store.rows[id].runAt == state.now + policy.backoff
         else
           && state.store.rows[id].status == FAILED
           && state.Log(id) != [] && state.Log(id)[|state.Log(id)| - 1] == WorkflowFailed(Exhausted(name, error))
    }

    /** The run has suspended at command `c`, step `n`, and left the row as this command asks for. */
    ghost predicate Rests(rid: RunId, id: Id, n: nat, c: Command)
      reads this
    {
      && Over(rid, id)
      && match c
         case Activity(name, _, policy, _) =>
           exists error, k: nat :: Failed(n, error, k) in state.Log(id) && Concluded(id, name, policy, error, k)
         case Sleep(_) =>
           exists e :: e in state.Log(id) && e.Sleeping? && e.step == n && state.store.rows[id].runAt == e.wakeupAt
         case WaitSignal(_) => Waiting(id, n, c)
         case WaitChild(_) => Waiting(id, n, c)
         case _ => false
    }

    ghost predicate Waiting(id: Id, n: nat, c: Command)
      requires Waits(c)
      reads this
    {
      && id in state.store.rows && state.store.rows[id].status == WAITING
      && MarkerEvent(c) in state.Log(id) && First(state.Log(id), Settles(n, c)).None?
    }

    /** `execute_activity`. */
    method ExecuteActivity(rid: RunId, ctx: WorkflowContext, ghost flow: Workflow, ghost obs: seq<Obs>,
                           name: string, call: Arguments, policy: Policy, annotation: Annotation) returns (r: Awaited)
      requires Valid() && At(rid, ctx, flow, obs, Deciding) && ctx.stepCounter == |obs|
      requires flow(obs) == Activity(name, call, policy, annotation)
      modifies this`state, this`others, this`bodies, this`acts, db, ctx
      ensures Valid() && Onward(rid) && ctx.stepCounter == |obs| + 1
      ensures r.Observed? ==> At(rid, ctx, flow, obs + [r.obs], Deciding)
      ensures r.Observed? ==> Told(code.classes, state.Log(ctx.workflowId), |obs|, flow(obs), r.obs)
      ensures First(ctx.eventHistory, AtStep(|obs|, CompletedKind)).Some? ==>
        r.Observed? && Tells(code.classes, ctx.eventHistory, |obs|, flow(obs), r.obs)
          && state.store == old(state.store) && bodies == old(bodies)
      ensures First(ctx.eventHistory, AtStep(|obs|, CompletedKind)).None? && !r.Divergence? ==>
        && Recorded(rid, ctx, obs, flow(obs), old(NextOutcome(annotation)), r)
        && CallRecorded(state.Log(ctx.workflowId), |obs|, name, SerializeArguments(call))
      ensures r.Suspended? ==> Rests(rid, ctx.workflowId, |obs|, flow(obs))
      ensures r.Divergence? <==> Diverges(ctx.eventHistory, |obs|, name, SerializeArguments(call))
      ensures r.Divergence? ==> r.step == |obs| && At(rid, ctx, flow, obs, Deciding)
      ensures r.Divergence? ==> state == old(state) && acts == old(acts)
    {
      hide Reached, Legal, FamilyInv, Apply, Enabled, Permits, TheStore, First, Count, FromJsonSafe, ToJsonSafe;
      hide Grows, FlowOf, Leads, Concluded;
      var step := ctx.NextStepIndex();

      var completed := ctx.Find(AtStep(step, CompletedKind));
      if completed.Some? {
        var o := RestoredResult(code.classes, completed.value.result, annotation);
        ReachedFamily(code, cfg, sch, start, acts, state);
        RecordedIsTold(code, state, rid, step, flow(obs));
        Local(rid, state.runs[rid].Observe(o));
        GoesOn();
        return Observed(o);
      }

      hide SerializeArguments, Told, Lookup, Rests, Recorded, Diverges, CallRecorded;
      ghost var outcome := NextOutcome(annotation);
      var scheduled := ScheduleActivity(rid, ctx, flow, obs, step, name, call, policy, annotation);
      if !scheduled {
        GoesOn();
        return Divergence(step);
      }
      ghost var before := state;
      r := RunActivity(rid, ctx, flow, obs, step, name, call, policy, annotation);
      LogGrows(before.store, state.store, ctx.workflowId);
      RecordedLater(before.Log(ctx.workflowId), state.Log(ctx.workflowId), step, name, SerializeArguments(call));
      RecordedIsSound(rid, ctx, obs, flow(obs), outcome, r);
      GoesOn();
    }

    /** `execute_activity` as far as its SCHEDULED event: found and compared, or written. */
    method ScheduleActivity(rid: RunId, ctx: WorkflowContext, ghost flow: Workflow, ghost obs: seq<Obs>, step: nat,
                            name: string, call: Arguments, ghost policy: Policy, ghost annotation: Annotation)
      returns (scheduled: bool)
      requires Valid() && At(rid, ctx, flow, obs, Deciding) && step == |obs|
      requires flow(obs) == Activity(name, call, policy, annotation)
      requires First(ctx.eventHistory, AtStep(step, CompletedKind)).None?
      modifies this`state, this`others, this`acts, db
      ensures Valid() && Onward(rid) && bodies == old(bodies)
      ensures !scheduled <==> Diverges(ctx.eventHistory, step, name, SerializeArguments(call))
      ensures !scheduled ==> state == old(state) && acts == old(acts)
      ensures scheduled ==> At(rid, ctx, flow, obs, BodyReady)
      ensures scheduled ==> CallRecorded(state.Log(ctx.workflowId), step, name, SerializeArguments(call))
    {
      hide Reached, Legal, FamilyInv, Apply, Enabled, Permits, TheStore, First, Count, FromJsonSafe, ToJsonSafe;
      hide Grows, FlowOf, Leads, RestoredResult;
      var arguments := SerializeArguments(call);
      hide SerializeArguments, SameJson;
      var existing := ctx.Find(AtStep(step, ScheduledKind));
      scheduled := existing.None? || (existing.value.name == name && SameJson(existing.value.call, arguments));
      if existing.None? {
        Interfere(rid);
        Write(rid, Proceed, ctx.workflowId, Scheduled(step, name, arguments), state.runs[rid].(pc := BodyReady));
        SameJsonReflexive(arguments);
        assert state.Log(ctx.workflowId)[|state.Log(ctx.workflowId)| - 1] == Scheduled(step, name, arguments);
      } else if scheduled {
        ReachedFamily(code, cfg, sch, start, acts, state);
        RecordedIsThere(code, state, rid, AtStep(step, ScheduledKind));
        Local(rid, state.runs[rid].(pc := BodyReady));
        assert Scheduled(step, name, existing.value.call) in state.Log(ctx.workflowId);
      }
      GoesOn();
    }

    /** The log ends with the recorded outcome of this step. */
    ghost predicate EndsWith(id: Id, e: Event)
      reads this
    {
      state.Log(id) != [] && state.Log(id)[|state.Log(id)| - 1] == e
    }

    /** How the next body ends, as far as it keeps what the schedule promises of results. */
    function NextOutcome(annotation: Annotation): Choice
      reads this
    {
      if bodies == [] || bodies[0].Proceed? then Fails("TimeoutError")
      else if bodies[0].Fails? || !Promises(sch) then bodies[0]
      else if RestoredResult(code.classes, ToJsonSafe(bodies[0].value), annotation) == Result(bodies[0].value) then bodies[0]
      else Fails("TimeoutError")
    }

    /**
     * What a body that ends like this leaves at this step: its value handed over, and encoded in the last
     * event; or its error in the log, and the failure dealt with.
     */
    ghost predicate Recorded(rid: RunId, ctx: WorkflowContext, obs: seq<Obs>, c: Command, outcome: Choice, r: Awaited)
      requires c.Activity?
      reads this, ctx
    {
      var id, k := ctx.workflowId, Count(ctx.eventHistory, AtStep(|obs|, FailedKind));
      match outcome
      case Succeeds(v) => r == Observed(Result(v)) && EndsWith(id, Completed(|obs|, ToJsonSafe(v), k + 1))
      case Fails(e) =>
        r == Suspended && Over(rid, id) && Failed(|obs|, e, k) in state.Log(id) && Concluded(id, c.name, c.policy, e, k)
      case Proceed => false
    }

    lemma RecordedIsSound(rid: RunId, ctx: WorkflowContext, obs: seq<Obs>, c: Command, outcome: Choice, r: Awaited)
      requires c.Activity? && Recorded(rid, ctx, obs, c, outcome, r)
      ensures r.Observed? ==> Told(code.classes, state.Log(ctx.workflowId), |obs|, c, r.obs)
      ensures !r.Divergence?
      ensures r.Suspended? ==> Rests(rid, ctx.workflowId, |obs|, c)
    {
      hide Count, First, Concluded, Told, ToJsonSafe;
      if r.Observed? {
        CompletedIsTold(code.classes, state.Log(ctx.workflowId), c, r.obs.value);
      }
    }

    /** `execute_activity` from where SCHEDULED is in the log: one body, and its outcome recorded. */
    method RunActivity(rid: RunId, ctx: WorkflowContext, ghost flow: Workflow, ghost obs: seq<Obs>, step: nat,
                       name: string, ghost call: Arguments, policy: Policy, annotation: Annotation) returns (r: Awaited)
      requires Valid() && At(rid, ctx, flow, obs, BodyReady) && step == |obs|
      requires flow(obs) == Activity(name, call, policy, annotation)
      modifies this`state, this`others, this`bodies, this`acts, db
      ensures Valid() && Onward(rid) && Recorded(rid, ctx, obs, flow(obs), old(NextOutcome(annotation)), r)
      ensures r.Observed? ==> At(rid, ctx, flow, obs + [r.obs], Deciding)
    {
      hide Reached, Legal, FamilyInv, Apply, Enabled, Permits, TheStore, First, Count, FromJsonSafe, ToJsonSafe;
      hide Grows, FlowOf, Decide, Leads, Concluded, RestoredResult, Lookup;
      var failedAttempts := ctx.CountFailedEvents(step);
      Local(rid, state.runs[rid].(pc := BodyRunning));
      Interfere(rid);
      var outcome := RunActivityBody(annotation);
      if outcome.Fails? {
        ActivityFailed(rid, ctx, flow, obs, step, name, call, policy, annotation, failedAttempts, outcome.error);
        r := Suspended;
      } else {
        ActivitySucceeded(rid, ctx, flow, obs, step, name, call, policy, annotation, failedAttempts, outcome.value);
        r := Observed(Result(outcome.value));
      }
      GoesOn();
    }

    /** `execute_activity` from where its body has returned. */
    method ActivitySucceeded(rid: RunId, ctx: WorkflowContext, ghost flow: Workflow, ghost obs: seq<Obs>, step: nat,
                             ghost name: string, ghost call: Arguments, ghost policy: Policy, ghost annotation: Annotation,
                             failedAttempts: nat, value: PyValue)
      requires Valid() && At(rid, ctx, flow, obs, BodyRunning) && step == |obs|
      requires flow(obs) == Activity(name, call, policy, annotation)
      requires failedAttempts == Count(ctx.eventHistory, AtStep(step, FailedKind))
      requires Promises(sch) ==> RestoredResult(code.classes, ToJsonSafe(value), annotation) == Result(value)
      modifies this`state, this`acts, db
      ensures Valid() && Onward(rid) && bodies == old(bodies)
      ensures Recorded(rid, ctx, obs, flow(obs), Succeeds(value), Observed(Result(value)))
      ensures At(rid, ctx, flow, obs + [Result(value)], Deciding)
    {
      hide Reached, Legal, FamilyInv, Apply, Enabled, Permits, TheStore, First, Count, FromJsonSafe, ToJsonSafe;
      hide Grows, FlowOf, Decide, Leads, Concluded, RestoredResult, Lookup;
      RestoredIsPermitted(code, sch, state, rid, value);
      ghost var next := state.runs[rid].Observe(Result(value));
      Write(rid, Succeeds(value), ctx.workflowId, Completed(step, ToJsonSafe(value), failedAttempts + 1), next);
      GoesOn();
    }

    /** `execute_activity` from where its body has raised. */
    method ActivityFailed(rid: RunId, ctx: WorkflowContext, ghost flow: Workflow, ghost obs: seq<Obs>, step: nat,
                          name: string, ghost call: Arguments, policy: Policy, ghost annotation: Annotation,
                          failedAttempts: nat, error: string)
      requires Valid() && At(rid, ctx, flow, obs, BodyRunning) && step == |obs|
      requires flow(obs) == Activity(name, call, policy, annotation)
      requires failedAttempts == Count(ctx.eventHistory, AtStep(step, FailedKind))
      modifies this`state, this`others, this`acts, db
      ensures Valid() && Onward(rid) && bodies == old(bodies)
      ensures Recorded(rid, ctx, obs, flow(obs), Fails(error), Suspended)
    {
      hide Reached, Legal, FamilyInv, Apply, Enabled, Permits, TheStore, First, Count, FromJsonSafe, ToJsonSafe;
      hide Grows, FlowOf, Decide, Leads, Concluded, RestoredResult, Lookup;
      ghost var next := state.runs[rid].(pc := Retrying(error, failedAttempts));
      Write(rid, Fails(error), ctx.workflowId, Failed(step, error, failedAttempts), next);
      ghost var log := state.Log(ctx.workflowId);
      HandleActivityFailure(rid, ctx, flow, obs, name, call, policy, annotation, failedAttempts, error);
      assert log[|log| - 1] in state.Log(ctx.workflowId);
      GoesOn();
    }

    /** The body of an activity: its end is not in the worker's hands. It keeps what the schedule promises of it. */
    method RunActivityBody(annotation: Annotation) returns (outcome: Choice)
      modifies this`bodies
      ensures outcome == old(NextOutcome(annotation)) && !outcome.Proceed?
      ensures bodies == if old(bodies) == [] || old(bodies)[0].Proceed? then old(bodies) else old(bodies)[1..]
      ensures outcome.Succeeds? && Promises(sch) ==>
        RestoredResult(code.classes, ToJsonSafe(outcome.value), annotation) == Result(outcome.value)
    {
      hide RestoredResult, ToJsonSafe;
      outcome := NextOutcome(annotation);
      if bodies != [] && !bodies[0].Proceed? {
        bodies := bodies[1..];
      }
    }

    /** `_handle_activity_failure`, after its FAILED event. */
    method HandleActivityFailure(rid: RunId, ctx: WorkflowContext, ghost flow: Workflow, ghost obs: seq<Obs>,
                                 name: string, ghost call: Arguments, policy: Policy, ghost annotation: Annotation,
                                 failedAttempts: nat, error: string)
      requires Valid() && At(rid, ctx, flow, obs, Retrying(error, failedAttempts))
      requires flow(obs) == Activity(name, call, policy, annotation)
      modifies this`state, this`others, this`acts, db
      ensures Valid() && Onward(rid) && Over(rid, ctx.workflowId) && bodies == old(bodies)
      ensures old(state.Log(ctx.workflowId)) <= state.Log(ctx.workflowId)
      ensures Concluded(ctx.workflowId, name, policy, error, failedAttempts)
      ensures failedAttempts + 1 > policy.maxRetries ==>
        && Ended(rid, ctx.workflowId, ChildFailed(Exhausted(name, error)))
        && Delivered(ChildFailed(Exhausted(name, error)), ctx.parentInfo)
    {
      hide Reached, Legal, FamilyInv, Apply, Enabled, Permits, TheStore, First, Count, Grows, FlowOf, Decide, Leads;
      Interfere(rid);
      var attemptsUsed := failedAttempts + 1;
      if attemptsUsed <= policy.maxRetries {
        Reschedule(rid, ctx.workflowId, db.now + policy.backoff);
      } else {
        Terminate(rid, ctx.workflowId, ChildFailed(Exhausted(name, error)), ctx.parentInfo);
      }
      GoesOn();
      LogGrows(old(state.store), state.store, ctx.workflowId);
    }

    /** `sleep`. */
    method Sleep(rid: RunId, ctx: WorkflowContext, ghost flow: Workflow, ghost obs: seq<Obs>, duration: Time)
      returns (r: Awaited)
      requires Valid() && At(rid, ctx, flow, obs, Deciding) && ctx.stepCounter == |obs|
      requires flow(obs) == Command.Sleep(duration)
      modifies this`state, this`others, this`acts, db, ctx
      ensures Valid() && Onward(rid) && ctx.stepCounter == |obs| + 1 && !r.Divergence? && bodies == old(bodies)
      ensures r.Observed? ==> r.obs == Slept && At(rid, ctx, flow, obs + [Slept], Deciding)
      ensures r.Observed? ==> Told(code.classes, state.Log(ctx.workflowId), |obs|, flow(obs), r.obs)
      ensures r.Suspended? ==> Rests(rid, ctx.workflowId, |obs|, flow(obs))
      ensures SleptOrParked(ctx.workflowId, |obs|, duration, old(state.now),
        First(ctx.eventHistory, AtStep(|obs|, SleepingKind)), r)
    {
      hide Reached, Legal, FamilyInv, Apply, Enabled, Permits, TheStore, First, Count, Grows, FlowOf, Leads, Told;
      var step := ctx.NextStepIndex();
      var existing := ctx.Find(AtStep(step, SleepingKind));
      Interfere(rid);
      if existing.Some? {
        ReachedFamily(code, cfg, sch, start, acts, state);
        RecordedIsTold(code, state, rid, step, flow(obs));
        RecordedIsThere(code, state, rid, AtStep(step, SleepingKind));
        var wakeupAt := existing.value.wakeupAt;
        if db.now >= wakeupAt {
          RowOfRun(code, state, rid);
          Local(rid, state.runs[rid].Observe(Slept));
          GoesOn();
          return Observed(Slept);
        }
        Reschedule(rid, ctx.workflowId, wakeupAt);
        GoesOn();
        assert existing.value in state.Log(ctx.workflowId);
        return Suspended;
      }
      Park(rid, ctx, flow, obs, duration, step);
      GoesOn();
      r := Suspended;
    }

    /** `sleep` for the first time, from where it reads the clock. */
    method Park(rid: RunId, ctx: WorkflowContext, ghost flow: Workflow, ghost obs: seq<Obs>, duration: Time, step: nat)
      requires Valid() && At(rid, ctx, flow, obs, Deciding) && step == |obs| && flow(obs) == Command.Sleep(duration)
      requires First(ctx.eventHistory, AtStep(step, SleepingKind)).None?
      modifies this`state, this`others, this`acts, db
      ensures Valid() && Onward(rid) && bodies == old(bodies)
      ensures Rests(rid, ctx.workflowId, step, flow(obs))
      ensures SleptOrParked(ctx.workflowId, step, duration, old(state.now), None, Suspended)
    {
      hide Reached, Legal, FamilyInv, Apply, Enabled, Permits, TheStore, First, Count, Grows, FlowOf, Leads;
      var wakeupAt := db.now + duration;
      var slept := Sleeping(step, wakeupAt, db.now);
      Write(rid, Proceed, ctx.workflowId, slept, state.runs[rid].(pc := Parking(wakeupAt)));
      ghost var before := state;
      assert before.Log(ctx.workflowId)[|before.Log(ctx.workflowId)| - 1] == slept;
      Interfere(rid);
      LogGrows(before.store, state.store, ctx.workflowId);
      assert slept in state.Log(ctx.workflowId);
      Reschedule(rid, ctx.workflowId, wakeupAt);
      GoesOn();
      assert slept in state.Log(ctx.workflowId);
    }

    /**
     * A recorded sleep is over exactly if its time has come, and the row is due then if not. A new one is
     * counted from no earlier than `since`, and the row is due at its end.
     */
    ghost predicate SleptOrParked(id: Id, n: nat, duration: Time, since: Time, recorded: Option<Event>, r: Awaited)
      reads this
    {
      && id in state.store.rows
      && var due := state.store.rows[id].runAt;
        match recorded
        case Some(Sleeping(_, wakeupAt, _)) =>
          (r.Observed? <==> wakeupAt <= state.now) && (r.Observed? || due == wakeupAt)
        case _ =>
          r.Suspended? && since <= due - duration <= state.now && Sleeping(n, due, due - duration) in state.Log(id)
    }

    /** `spawn_child`. */
    method SpawnChild(rid: RunId, ctx: WorkflowContext, ghost flow: Workflow, ghost obs: seq<Obs>,
                      name: string, input: Json) returns (child: Id)
      requires Valid() && At(rid, ctx, flow, obs, Deciding) && ctx.stepCounter == |obs| && flow(obs) == Spawn(name, input)
      modifies this`state, this`others, this`acts, db, ctx
      ensures Valid() && Onward(rid) && bodies == old(bodies)
      ensures ctx.stepCounter == |obs| + 1 && At(rid, ctx, flow, obs + [Spawned(child)], Deciding)
      ensures child == ChildId(ctx.workflowId, |obs|) && IsChildOf(state.store, child, ctx.workflowId)
      ensures Told(code.classes, state.Log(ctx.workflowId), |obs|, flow(obs), Spawned(child))
    {
      hide Reached, Legal, FamilyInv, Apply, Enabled, Permits, TheStore, First, Count, Grows, FlowOf, ChildId, Commit;
      hide StoreInv, Leads, Tells;
      var step := ctx.NextStepIndex();
      var existing := ctx.Find(AtStep(step, ChildStartedKind));
      ReachedFamily(code, cfg, sch, start, acts, state);
      if existing.Some? {
        child := existing.value.childId;
        SpawnFound(code, state, rid, step);
        Local(rid, state.runs[rid].Observe(Spawned(child)));
      } else {
        child := CreateChild(rid, ctx, flow, obs, step, name, input);
      }
      GoesOn();
      ReachedFamily(code, cfg, sch, start, acts, state);
      FamilyStore(code, state);
      SpawnIsRecorded(state.store, ctx.workflowId, step);
      LookupIsWhatTheLogTells(code.classes, state.Log(ctx.workflowId), step, flow(obs), Spawned(child));
    }

    /** A spawn that history does not know: the insert that a taken id turns into nothing. */
    method CreateChild(rid: RunId, ctx: WorkflowContext, ghost flow: Workflow, ghost obs: seq<Obs>, step: nat,
                       name: string, input: Json) returns (child: Id)
      requires Valid() && At(rid, ctx, flow, obs, Deciding) && step == |obs| && flow(obs) == Spawn(name, input)
      requires First(ctx.eventHistory, AtStep(step, ChildStartedKind)).None?
      modifies this`state, this`others, this`acts, db
      ensures Valid() && Onward(rid) && bodies == old(bodies) && At(rid, ctx, flow, obs + [Spawned(child)], Deciding)
      ensures child == ChildId(ctx.workflowId, step) && child in state.store.rows
    {
      hide Reached, Legal, FamilyInv, Apply, Enabled, Permits, TheStore, First, Count, Grows, FlowOf, ChildId, Commit;
      hide StoreInv, Leads;
      child := ChildId(ctx.workflowId, step);
      Interfere(rid);
      ReachedFamily(code, cfg, sch, start, acts, state);
      OwnStep(code, cfg, sch, state, rid, Proceed);
      db.Tables();
      var _ := db.CreateChildWorkflow(ctx.workflowId, child, name, input, step);
      db.Tables();
      ChildIsThere(state.store, state.now, cfg.lockDuration, ctx.workflowId, step, name, input);
      Follow(rid, Proceed);
      GoesOn();
    }

    /** `wait_for_signal` and `wait_for_child`: look, leave a marker, mark the row, look again if that is refused. */
    method WaitFor(rid: RunId, ctx: WorkflowContext, ghost flow: Workflow, ghost obs: seq<Obs>, c: Command)
      returns (r: Awaited)
      requires Valid() && At(rid, ctx, flow, obs, Deciding) && ctx.stepCounter == |obs| && flow(obs) == c && Waits(c)
      modifies this`state, this`others, this`acts, db, ctx
      ensures Valid() && Onward(rid) && ctx.stepCounter == |obs| + 1 && !r.Divergence? && bodies == old(bodies)
      ensures r.Observed? ==> At(rid, ctx, flow, obs + [r.obs], Deciding)
      ensures r.Observed? ==> Tells(code.classes, state.Log(ctx.workflowId), |obs|, c, r.obs)
      ensures r.Suspended? ==> Rests(rid, ctx.workflowId, |obs|, c)
    {
      hide Reached, Legal, FamilyInv, Apply, Enabled, Permits, TheStore, First, Count, Grows, FlowOf, Commit, Leads;
      var step := ctx.NextStepIndex();
      var received := ctx.Find(Settles(step, c));
      if received.Some? {
        var o := ObsOf(code.classes, c, received.value);
        ReachedFamily(code, cfg, sch, start, acts, state);
        RecordedIsTold(code, state, rid, step, c);
        Local(rid, state.runs[rid].Observe(o));
        GoesOn();
        return Observed(o);
      }
      LeaveMarker(rid, ctx, flow, obs, c);
      r := Mark(rid, ctx, flow, obs, c);
      GoesOn();
    }

    /** The marker of a wait: found, or written. */
    method LeaveMarker(rid: RunId, ctx: WorkflowContext, ghost flow: Workflow, ghost obs: seq<Obs>, c: Command)
      requires Valid() && At(rid, ctx, flow, obs, Deciding) && flow(obs) == c && Waits(c)
      requires First(ctx.eventHistory, Settles(|obs|, c)).None?
      modifies this`state, this`others, this`acts, db
      ensures Valid() && Onward(rid) && At(rid, ctx, flow, obs, Marking) && bodies == old(bodies)
      ensures MarkerEvent(c) in state.Log(ctx.workflowId)
    {
      hide Reached, Legal, FamilyInv, Apply, Enabled, Permits, TheStore, First, Count, Grows, FlowOf, Commit, Leads;
      hide Settles, ObsOf;
      var marker := ctx.Find(Marker(c));
      if marker.None? {
        Interfere(rid);
        Write(rid, Proceed, ctx.workflowId, MarkerEvent(c), state.runs[rid].(pc := Marking));
        assert state.Log(ctx.workflowId)[|state.Log(ctx.workflowId)| - 1] == MarkerEvent(c);
      } else {
        ReachedFamily(code, cfg, sch, start, acts, state);
        RecordedMarker(code, state, rid, c);
        Local(rid, state.runs[rid].(pc := Marking));
      }
      GoesOn();
    }

    /** From where the waiting marker is in the log. */
    method Mark(rid: RunId, ctx: WorkflowContext, ghost flow: Workflow, ghost obs: seq<Obs>, c: Command)
      returns (r: Awaited)
      requires Valid() && At(rid, ctx, flow, obs, Marking) && flow(obs) == c && Waits(c)
      requires MarkerEvent(c) in state.Log(ctx.workflowId)
      modifies this`state, this`others, this`acts, db
      ensures Valid() && Onward(rid) && !r.Divergence? && bodies == old(bodies)
      ensures r.Observed? ==> At(rid, ctx, flow, obs + [r.obs], Deciding)
      ensures r.Observed? ==> Tells(code.classes, state.Log(ctx.workflowId), |obs|, c, r.obs)
      ensures r.Suspended? ==> Over(rid, ctx.workflowId) && Waiting(ctx.workflowId, |obs|, c)
    {
      hide Reached, Legal, FamilyInv, Apply, Enabled, Permits, TheStore, First, Count, Grows, FlowOf, Commit, Decide;
      hide Leads;
      Interfere(rid);
      LogGrows(old(state.store), state.store, ctx.workflowId);
      ReachedFamily(code, cfg, sch, start, acts, state);
      OwnStep(code, cfg, sch, state, rid, Proceed);
      db.Tables();
      var awaited := Settles(0, c);
      var marked := db.MarkWorkflowWaiting(ctx.workflowId, awaited);
      Follow(rid, Proceed);
      if marked {
        GoesOn();
        return Suspended;
      }
      r := LookAgain(rid, ctx, flow, obs, c);
      GoesOn();
    }

    /** After a refused mark: fresh history, which holds the event. */
    method LookAgain(rid: RunId, ctx: WorkflowContext, ghost flow: Workflow, ghost obs: seq<Obs>, c: Command)
      returns (r: Awaited)
      requires Valid() && At(rid, ctx, flow, obs, Reloading) && flow(obs) == c && Waits(c)
      modifies this`state, this`others, this`acts, db
      ensures Valid() && Onward(rid) && r.Observed? && bodies == old(bodies)
      ensures At(rid, ctx, flow, obs + [r.obs], Deciding)
      ensures Tells(code.classes, state.Log(ctx.workflowId), |obs|, c, r.obs)
    {
      hide Reached, Legal, FamilyInv, Apply, Enabled, Permits, TheStore, First, Count, Grows, FlowOf, Commit, Decide;
      hide Leads, Tells;
      Interfere(rid);
      db.Tables();
      ReachedFamily(code, cfg, sch, start, acts, state);
      MarkRefused(code, state, rid);
      var history := db.LoadEventHistory(ctx.workflowId);
      var settled := FindIn(history, Settles(0, c));
      if settled.Some? {
        var o := ObsOf(code.classes, c, settled.value);
        LookupIsWhatTheLogTells(code.classes, state.Log(ctx.workflowId), |obs|, c, o);
        Local(rid, state.runs[rid].Observe(o));
        GoesOn();
        return Observed(o);
      }
      assert false;  // the suspension that would leave the lock held
    }

    // ----- The runner -----

    /** Loading the history of a claimed workflow. */
    method LoadHistory(rid: RunId, id: Id) returns (history: Log)
      requires Valid() && rid in state.runs && state.runs[rid].wf == id && state.runs[rid].pc.Claimed?
      modifies this`state, this`others, this`acts, db
      ensures Valid() && Onward(rid) && rid in state.runs && bodies == old(bodies)
      ensures history != [] && history == state.Log(id)
      ensures state.runs[rid] ==
        old(state.runs[rid]).(hist := history, obs := [], pc := Deciding, due := state.runs[rid].due)
    {
      hide Reached, Legal, FamilyInv, Apply, Enabled, Permits, TheStore, First, Count, Grows, FlowOf, Decide, Leads;
      Interfere(rid);
      ReachedFamily(code, cfg, sch, start, acts, state);
      OwnStep(code, cfg, sch, state, rid, Proceed);
      RowOfRun(code, state, rid);
      db.Tables();
      history := db.LoadEventHistory(id);
      Follow(rid, Proceed);
      GoesOn();
    }

    /** How driving a run ended, and the results handed over until then. */
    ghost predicate Driven(rid: RunId, id: Id, flow: Workflow, obs: seq<Obs>, exit: Exit)
      reads this
    {
      && AllTold(code.classes, flow, state.Log(id), obs)
      && match exit
         case OutOfFuel => rid in state.runs && state.runs[rid].obs == obs
         case Finished(outcome) => Ended(rid, id, outcome) && Prescribed(flow(obs), |obs|, outcome)
         case Rested => Rests(rid, id, |obs|, flow(obs))
    }

    /**
     * `_run_workflow`: loads the history, drives the coroutine, and writes the outcome. `fuel` bounds
     * the results handed over, since workflow code may go on for ever.
     */
    method RunWorkflow(rid: RunId, id: Id, name: string, fuel: nat) returns (obs: seq<Obs>, exit: Exit)
      requires Valid() && rid in state.runs
      requires state.runs[rid].wf == id && state.runs[rid].name == name && state.runs[rid].pc.Claimed?
      modifies this`state, this`others, this`bodies, this`acts, db
      ensures Valid() && Onward(rid)
      ensures id in state.store.rows && Driven(rid, id, FlowAt(code, state, id), obs, exit)
      ensures exit.Finished? ==> Delivered(exit.outcome, ParentInfoOf(state.store.rows[id], id))
      ensures name !in code.registry ==> exit == Finished(ChildFailed(Unregistered(name))) && obs == []
      ensures exit.OutOfFuel? ==> |obs| == fuel
    {
      hide Reached, Legal, FamilyInv, Apply, Enabled, Permits, TheStore, First, Count, Grows, SerializeArguments;
      hide FromJsonSafe, Lookup, Leads, Told, Concluded, Waiting, Rests, Delivered;
      var history := LoadHistory(rid, id);
      var startedEvent := FindIn(history, IsStarted);
      ghost var loaded, sofar := state, acts;
      ReachedFamily(code, cfg, sch, start, acts, state);
      if startedEvent.None? {
        Interfere(rid);
        Terminate(rid, id, ChildFailed(StartedMissing), None);
        obs, exit := [], Finished(ChildFailed(StartedMissing));
      } else {
        var parentInfo := startedEvent.value.parent;
        if name !in code.registry {
          Interfere(rid);
          Terminate(rid, id, ChildFailed(Unregistered(name)), parentInfo);
          obs, exit := [], Finished(ChildFailed(Unregistered(name)));
        } else {
          var ctx := new WorkflowContext(id, history, parentInfo);
          obs, exit := Drive(rid, ctx, code.registry[name](startedEvent.value.input), fuel);
        }
      }
      GoesOn();
      RecordLeadsOn(code, cfg, sch, start, sofar, loaded, acts, state);
      SameFlowSince(code, loaded, rid, state);
    }

    /** The coroutine, from its first step on. */
    method Drive(rid: RunId, ctx: WorkflowContext, flow: Workflow, fuel: nat) returns (obs: seq<Obs>, exit: Exit)
      requires Valid() && At(rid, ctx, flow, [], Deciding) && ctx.stepCounter == 0
      modifies this`state, this`others, this`bodies, this`acts, db, ctx
      ensures Valid() && Onward(rid)
      ensures Driven(rid, ctx.workflowId, flow, obs, exit)
      ensures exit.Finished? ==> Delivered(exit.outcome, ctx.parentInfo)
      ensures exit.OutOfFuel? ==> |obs| == fuel
    {
      hide Reached, Legal, FamilyInv, Apply, Enabled, Permits, TheStore, First, Count, Grows, SerializeArguments;
      hide FromJsonSafe, FlowOf, Leads, Concluded, Waiting, Rests, Lookup, AllTold;
      hide Delivered;
      obs := [];
      GoesOn();
      NothingTold(code.classes, flow, state.Log(ctx.workflowId));
      while |obs| < fuel
        invariant |obs| <= fuel && Valid() && Onward(rid)
        invariant At(rid, ctx, flow, obs, Deciding) && ctx.stepCounter == |obs|
        invariant AllTold(code.classes, flow, state.Log(ctx.workflowId), obs)
      {
        ghost var before := state;
        var c := flow(obs);
        var r: Awaited;
        match c {
          case Return(result) =>
            exit := Conclude(rid, ctx, flow, obs, ChildCompleted(result));
            GoesOn();
            return;
          case Raise(reason) =>
            exit := Conclude(rid, ctx, flow, obs, ChildFailed(reason));
            GoesOn();
            return;
          case Activity(name, call, policy, annotation) =>
            r := ExecuteActivity(rid, ctx, flow, obs, name, call, policy, annotation);
          case Sleep(duration) =>
            r := this.Sleep(rid, ctx, flow, obs, duration);
          case Spawn(name, input) =>
            var child := SpawnChild(rid, ctx, flow, obs, name, input);
            r := Observed(Spawned(child));
          case WaitSignal(_) =>
            r := WaitFor(rid, ctx, flow, obs, c);
          case WaitChild(_) =>
            r := WaitFor(rid, ctx, flow, obs, c);
        }
        LogGrows(before.store, state.store, ctx.workflowId);
        GoesOn();
        match r {
          case Suspended =>
            AllToldLater(code.classes, flow, before.Log(ctx.workflowId), state.Log(ctx.workflowId), obs);
            exit := Rested;
            return;
          case Divergence(step) =>
            exit := Conclude(rid, ctx, flow, obs, ChildFailed(Diverged(step)));
            GoesOn();
            return;
          case Observed(o) =>
            AllToldNext(code.classes, flow, before.Log(ctx.workflowId), state.Log(ctx.workflowId), obs, o);
            obs := obs + [o];
        }
      }
      exit := OutOfFuel;
    }

    /** The exits of the coroutine: it returned, raised, or diverged from its history. */
    method Conclude(rid: RunId, ctx: WorkflowContext, ghost flow: Workflow, ghost obs: seq<Obs>, outcome: ChildOutcome)
      returns (exit: Exit)
      requires Valid() && At(rid, ctx, flow, obs, Deciding) && Prescribed(flow(obs), |obs|, outcome)
      requires flow(obs).Activity? ==>
        Diverges(ctx.eventHistory, |obs|, flow(obs).name, SerializeArguments(flow(obs).call))
      requires AllTold(code.classes, flow, state.Log(ctx.workflowId), obs)
      modifies this`state, this`others, this`acts, db
      ensures Valid() && Onward(rid) && bodies == old(bodies)
      ensures exit == Finished(outcome) && Driven(rid, ctx.workflowId, flow, obs, exit)
      ensures Delivered(outcome, ctx.parentInfo)
    {
      hide Reached, Legal, FamilyInv, Apply, Enabled, Permits, TheStore, First, Count, Grows, SerializeArguments;
      hide FlowOf, Leads, Told, AllTold;
      Interfere(rid);
      Terminate(rid, ctx.workflowId, outcome, ctx.parentInfo);
      GoesOn();
      LogGrows(old(state.store), state.store, ctx.workflowId);
      AllToldLater(code.classes, flow, old(state.Log(ctx.workflowId)), state.Log(ctx.workflowId), obs);
      exit := Finished(outcome);
    }

    // ----- The scheduler's calls -----

    /** Claims the oldest eligible workflow for a new run, if there is one. */
    method ClaimNext(rid: RunId, worker: string) returns (r: Option<Id>)
      requires Valid() && rid !in state.runs && !sch.Exclusive?
      modifies this`state, this`acts, db
      ensures Valid() && Leading() && old(acts) <= acts
      ensures r.None? ==> state == old(state)
      ensures r.None? ==> forall id :: id in state.store.rows ==> !state.store.rows[id].Claimable(state.now)
      ensures r.Some? ==> acts == old(acts) + [Claim(rid, worker, r.value)]
      ensures r.Some? ==> Enabled(code, old(state), Claim(rid, worker, r.value))
      ensures r.Some? ==> state == Apply(code, cfg, old(state), Claim(rid, worker, r.value))
      ensures r.Some? ==> forall id :: id in old(state.store.rows) && old(state.store.rows[id].Claimable(state.now)) ==>
        r.value in old(state.store.rows) && old(state.store.rows[r.value].runAt) <= old(state.store.rows[id].runAt)
    {
      hide Reached, Legal, TheStore, Row.Claimable, Apply, Commit, FamilyInv, Enabled, Permits, TxOf, Grows, Leads;
      db.Tables();
      r := db.ClaimNextWorkflow(worker);
      if r.Some? {
        var a := Claim(rid, worker, r.value);
        ReachedFamily(code, cfg, sch, start, acts, state);
        ClaimEnabled(code, sch, state, a);
        ForeignStep(code, cfg, state, a);
        ReachNext(code, cfg, sch, start, acts, state, a);
        state, acts := Apply(code, cfg, state, a), acts + [a];
      } else {
        NoTxIsNothing(state.store, state.now, cfg.lockDuration);
        db.Tables();
      }
      GoesOn();
    }

    /** One beat of `_workflow_lock_heartbeat_loop`. */
    method Heartbeat(rid: RunId, id: Id)
      requires Valid() && rid in state.runs && state.runs[rid].wf == id
      modifies this`state, this`acts, db
      ensures Valid() && Leading() && acts == old(acts) + [Beat(rid)] && Beaten(rid, id)
    {
      hide Reached, Legal, TheStore, Apply, Commit, FamilyInv, Enabled, Permits, Grows, Beaten, Leads;
      ReachedFamily(code, cfg, sch, start, acts, state);
      RowOfRun(code, state, rid);
      BeatStep(code, cfg, sch, state, rid);
      ReachNext(code, cfg, sch, start, acts, state, Beat(rid));
      db.Tables();
      db.ExtendWorkflowLock(id);
      state, acts := Apply(code, cfg, state, Beat(rid)), acts + [Beat(rid)];
      assert Beaten(rid, id) by {
        BeatenIs(rid, id);
      }
      GoesOn();
    }

    /** The lock has its full duration ahead, and so has the time until the next beat is due. */
    ghost predicate Beaten(rid: RunId, id: Id)
      reads this
    {
      && rid in state.runs && state.runs[rid].wf == id
      && state.runs[rid].due == state.now + cfg.heartbeatInterval + cfg.maxDelay
      && id in state.store.rows && state.store.rows[id].lockedUntil == Some(state.now + cfg.lockDuration)
    }

    lemma BeatenIs(rid: RunId, id: Id)
      requires rid in state.runs && state.runs[rid].wf == id
      requires state.runs[rid].due == state.now + cfg.heartbeatInterval + cfg.maxDelay
      requires id in state.store.rows && state.store.rows[id].lockedUntil == Some(state.now + cfg.lockDuration)
      ensures Beaten(rid, id)
    {
    }
  }

  /** The log has this call scheduled at this step, with the same arguments. */
  ghost predicate CallRecorded(log: Log, step: nat, name: string, call: Json) {
    exists recorded :: Scheduled(step, name, recorded) in log && SameJson(recorded, call)
  }

  lemma RecordedLater(log: Log, more: Log, step: nat, name: string, call: Json)
    requires CallRecorded(log, step, name, call) && log <= more
    ensures CallRecorded(more, step, name, call)
  {
    var recorded :| Scheduled(step, name, recorded) in log && SameJson(recorded, call);
    assert Scheduled(step, name, recorded) in more;
  }

  /** The history holds another call at this step, and no result yet. */
  predicate Diverges(history: Log, step: nat, name: string, call: Json) {
    var scheduled := First(history, AtStep(step, ScheduledKind));
    && First(history, AtStep(step, CompletedKind)).None? && scheduled.Some?
    && (scheduled.value.name != name || !SameJson(scheduled.value.call, call))
  }

  /** So a divergence is a change of the activity or of its arguments since they were recorded. */
  lemma DivergesByArguments(history: Log, step: nat, name: string, call: Arguments, oldName: string, oldCall: Arguments)
    requires First(history, AtStep(step, ScheduledKind)) == Some(Scheduled(step, oldName, SerializeArguments(oldCall)))
    requires IsCall(call) && IsCall(oldCall)
    ensures Diverges(history, step, name, SerializeArguments(call)) <==>
      First(history, AtStep(step, CompletedKind)).None? && (name != oldName || !SameCall(oldCall, call))
  {
    hide First, SerializeArguments;
    ComparedByArguments(oldCall, call);
  }

  /** What an awaited primitive hands back to the coroutine, or raises through it. */
  datatype Awaited = Observed(obs: Obs) | Suspended | Divergence(step: nat)

  /** How the runner left a run: with its fuel used up, finished, or suspended. */
  datatype Exit = OutOfFuel | Finished(outcome: ChildOutcome) | Rested

  /** The outcome the code calls for; an activity can only have diverged. */
  predicate Prescribed(c: Command, n: nat, outcome: ChildOutcome) {
    match c
    case Return(result) => outcome == ChildCompleted(result)
    case Raise(reason) => outcome == ChildFailed(reason)
    case Activity(_, _, _, _) => outcome == ChildFailed(Diverged(n))
    case _ => false
  }
}
