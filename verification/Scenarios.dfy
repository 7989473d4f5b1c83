/**
 * Behaviours of a single workflow, followed action by action, that show what the engine does allow:
 * more failures than the retry limit, a finished workflow running again, a replay that hands a run
 * another value than the one its predecessor was given, and unchanged code that diverges on account of it.
 */
module Scenarios {
  import opened Wrappers
  import opened Ids
  import opened Serialization
  import opened Events
  import opened Transactions
  import opened Workflows
  import opened Machine
  import opened Cluster
  import opened RoundTrip

  // ----- Following one workflow -----

  /** What a state shows of its one workflow and that workflow's run. */
  datatype View = View(row: Row, log: Log, run: Option<Run>, seen: seq<Obs>, reopened: nat, now: Time)

  ghost predicate Shows(s: State, id: Id, v: View) {
    && s.store.Has(id) && s.store.rows[id] == v.row && s.Log(id) == v.log
    && s.runs == (if v.run.Some? then map[0 := v.run.value] else map[])
    && s.Seen(id) == v.seen && s.audit.reopened[id] == v.reopened && s.now == v.now
  }

  /** Some behaviour leads from `from` to a state that shows `v`. */
  ghost predicate Gets(code: Code, cfg: Config, sch: Schedule, from: State, id: Id, v: View) {
    exists s :: Leads(code, cfg, sch, from, s) && Shows(s, id, v)
  }

  /** The view after a transaction on the workflow itself. */
  function Committed(v: View, tx: Tx, lockDuration: Time): View {
    match tx
    case WriteEvent(_, e) => v.(log := v.log + [e])
    case Reschedule(_, at) => v.(row := v.row.(runAt := at).Unlocked())
    case Finish(_, outcome, _) =>
      v.(row := v.row.(status := TerminalStatus(outcome)).Unlocked(), log := v.log + [TerminalEvent(outcome)])
    case WriteSignal(_, t, payload) =>
      v.(row := v.row.Woken(v.now), log := v.log + [Signal(t, payload)],
         reopened := v.reopened + if v.row.status == FAILED then 1 else 0)
    case ClaimWorkflow(_, worker) =>
      v.(row := v.row.(lockedBy := Some(worker), lockedUntil := Some(v.now + lockDuration)))
    case _ => v
  }

  predicate Own(tx: Tx, id: Id) {
    match tx
    case NoTx => true
    case WriteEvent(x, _) => x == id
    case Reschedule(x, _) => x == id
    case Finish(x, _, parentInfo) => x == id && parentInfo.None?
    case WriteSignal(x, _, _) => x == id
    case ClaimWorkflow(x, _) => x == id
    case _ => false
  }

  lemma CommitShows(s: State, id: Id, v: View, lockDuration: Time, tx: Tx)
    requires Shows(s, id, v) && Own(tx, id)
    ensures Valid(s.store, tx)
    ensures var t, u := Commit(s.store, s.now, lockDuration, tx), Committed(v, tx, lockDuration);
      t.Has(id) && t.rows[id] == u.row && t.Log(id) == u.log && v.reopened + Reopens(s.store, tx)[id] == u.reopened
  {
  }

  lemma StartsAs(code: Code, cfg: Config, sch: Schedule, now: Time, id: Id, name: string, input: Json)
    requires RootId(id)
    ensures Gets(code, cfg, sch, Init(now), id, View(NewRow(name, None, now), [Started(input, None)], None, [], 0, now))
  {
    hide Leads, Legal, Final;
    var a := Start(id, name, input);
    LeadsNowhere(code, cfg, sch, Init(now));
    LeadsThen(code, cfg, sch, Init(now), Init(now), a);
    var v := View(NewRow(name, None, now), [Started(input, None)], None, [], 0, now);
    assert Shows(Apply(code, cfg, Init(now), a), id, v);
  }

  lemma Ticks(code: Code, cfg: Config, sch: Schedule, from: State, id: Id, v: View, elapsed: nat)
    requires Gets(code, cfg, sch, from, id, v) && sch.Exclusive?
    ensures Gets(code, cfg, sch, from, id, v.(now := v.now + elapsed))
  {
    hide Leads;
    var s :| Leads(code, cfg, sch, from, s) && Shows(s, id, v);
    LeadsThen(code, cfg, sch, from, s, Tick(elapsed));
    assert Shows(Apply(code, cfg, s, Tick(elapsed)), id, v.(now := v.now + elapsed));
  }

  lemma Signals(code: Code, cfg: Config, sch: Schedule, from: State, id: Id, v: View, t: string, payload: Json)
    requires Gets(code, cfg, sch, from, id, v) && sch.Exclusive?
    ensures Gets(code, cfg, sch, from, id, Committed(v, WriteSignal(id, t, payload), cfg.lockDuration))
  {
    hide Leads, Commit, Reopens;
    var s :| Leads(code, cfg, sch, from, s) && Shows(s, id, v);
    var a := SendSignal(id, t, payload);
    CommitShows(s, id, v, cfg.lockDuration, WriteSignal(id, t, payload));
    LeadsThen(code, cfg, sch, from, s, a);
    assert Shows(Apply(code, cfg, s, a), id, Committed(v, WriteSignal(id, t, payload), cfg.lockDuration));
  }

  function FreshRun(cfg: Config, id: Id, v: View): Run {
    Run(id, "worker", v.row.name, [], [], Claimed, v.now + cfg.heartbeatInterval + cfg.maxDelay)
  }

  lemma Claims(code: Code, cfg: Config, sch: Schedule, from: State, id: Id, v: View)
    requires Gets(code, cfg, sch, from, id, v) && sch.Exclusive? && v.run.None? && v.row.Claimable(v.now)
    ensures Gets(code, cfg, sch, from, id,
      Committed(v, ClaimWorkflow(id, "worker"), cfg.lockDuration).(run := Some(FreshRun(cfg, id, v))))
  {
    hide Leads, Commit, Reopens;
    var s :| Leads(code, cfg, sch, from, s) && Shows(s, id, v);
    var a := Claim(0, "worker", id);
    CommitShows(s, id, v, cfg.lockDuration, ClaimWorkflow(id, "worker"));
    LeadsThen(code, cfg, sch, from, s, a);
    assert Shows(Apply(code, cfg, s, a), id,
      Committed(v, ClaimWorkflow(id, "worker"), cfg.lockDuration).(run := Some(FreshRun(cfg, id, v))));
  }

  /** The view after the worker has died; a failure past the limit that was not yet committed is forgotten. */
  function Crashed(code: Code, v: View): View
    requires v.run.Some?
  {
    v.(run := None, reopened := v.reopened + if OutOfRetries(code, v.run.value) then 1 else 0)
  }

  lemma Crashes(code: Code, cfg: Config, sch: Schedule, from: State, id: Id, v: View)
    requires Gets(code, cfg, sch, from, id, v) && sch.Exclusive? && v.run.Some? && v.run.value.wf == id
    ensures Gets(code, cfg, sch, from, id, Crashed(code, v))
  {
    hide Leads, OutOfRetries;
    var s :| Leads(code, cfg, sch, from, s) && Shows(s, id, v);
    LeadsThen(code, cfg, sch, from, s, Crash(0));
    assert Shows(Apply(code, cfg, s, Crash(0)), id, Crashed(code, v));
  }

  /** The view after a step of the run. */
  function Stepped(v: View, m: Move, lockDuration: Time): View {
    var u := Committed(v, m.tx, lockDuration).(run := m.next);
    if m.next.Some? && |v.seen| < |m.next.value.obs| then u.(seen := m.next.value.obs) else u
  }

  lemma StepShows(code: Code, cfg: Config, sch: Schedule, s: State, id: Id, v: View, choice: Choice, m: Move)
    requires Shows(s, id, v) && sch.Exclusive? && (choice.Succeeds? ==> !sch.restorable)
    requires v.run.Some? && v.run.value.wf == id && CanStep(code, v.run.value, choice)
    requires Step(code, v.log, v.now, v.run.value, choice) == m && Own(m.tx, id) && (m.next.Some? ==> m.next.value.wf == id)
    ensures Enabled(code, s, Progress(0, choice)) && Permits(code, sch, s, Progress(0, choice))
    ensures Shows(Apply(code, cfg, s, Progress(0, choice)), id, Stepped(v, m, cfg.lockDuration))
  {
    hide Commit, Reopens, Step, PcFits, CommandOf, Valid, Own, Committed, RestoredResult;
    assert s.runs[0] == v.run.value && MoveOf(code, s, s.runs[0], choice) == m;
    CommitShows(s, id, v, cfg.lockDuration, m.tx);
    SeenSteps(code, s, id, v, choice, m);
    RunSteps(code, cfg, s, id, v, choice, m);
    hide SeenAfter, RunsAfter;
    CommittedKeeps(v, m.tx, cfg.lockDuration);
  }

  lemma CommittedKeeps(v: View, tx: Tx, lockDuration: Time)
    ensures var u := Committed(v, tx, lockDuration); u.seen == v.seen && u.now == v.now
  {
  }

  lemma SeenSteps(code: Code, s: State, id: Id, v: View, choice: Choice, m: Move)
    requires Shows(s, id, v) && v.run.Some? && Enabled(code, s, Progress(0, choice))
    requires MoveOf(code, s, v.run.value, choice) == m && (m.next.Some? ==> m.next.value.wf == id)
    ensures var seen := SeenAfter(code, s, Progress(0, choice));
      (if id in seen then seen[id] else []) ==
        if m.next.Some? && |v.seen| < |m.next.value.obs| then m.next.value.obs else v.seen
  {
    hide Step, PcFits, CommandOf, Valid;
  }

  lemma RunSteps(code: Code, cfg: Config, s: State, id: Id, v: View, choice: Choice, m: Move)
    requires Shows(s, id, v) && v.run.Some? && Enabled(code, s, Progress(0, choice))
    requires MoveOf(code, s, v.run.value, choice) == m
    ensures RunsAfter(code, cfg, s, Progress(0, choice)) == if m.next.Some? then map[0 := m.next.value] else map[]
  {
    hide Step, PcFits, CommandOf, Valid;
  }

  lemma Steps(code: Code, cfg: Config, sch: Schedule, from: State, id: Id, v: View, choice: Choice, m: Move)
    requires Gets(code, cfg, sch, from, id, v) && sch.Exclusive? && (choice.Succeeds? ==> !sch.restorable)
    requires v.run.Some? && v.run.value.wf == id && CanStep(code, v.run.value, choice)
    requires Step(code, v.log, v.now, v.run.value, choice) == m && Own(m.tx, id) && (m.next.Some? ==> m.next.value.wf == id)
    ensures Gets(code, cfg, sch, from, id, Stepped(v, m, cfg.lockDuration))
  {
    hide Leads, Step, PcFits, CommandOf, Apply, Enabled, Permits, Own, Shows, Stepped;
    var s :| Leads(code, cfg, sch, from, s) && Shows(s, id, v);
    StepShows(code, cfg, sch, s, id, v, choice, m);
    LeadsThen(code, cfg, sch, from, s, Progress(0, choice));
  }

  // ----- A workflow that begins with an activity -----

  /** The first thing the flow of this name and input does is the activity `c`. */
  predicate BeginsWith(code: Code, name: string, input: Json, c: Command) {
    c.Activity? && name in code.registry && code.registry[name](input)([]) == c
  }

  /** The log of such a workflow after `k` failures of its first step and no success. */
  ghost predicate FailedSoFar(log: Log, input: Json, c: Command, k: nat) {
    && c.Activity? && First(log, IsStarted) == Some(Started(input, None))
    && Count(log, FailedAt(0)) == k && First(log, AtStep(0, CompletedKind)).None?
    && (First(log, AtStep(0, ScheduledKind)).Some? ==>
          First(log, AtStep(0, ScheduledKind)).value == Scheduled(0, c.name, SerializeArguments(c.call)))
  }

  /** No run of it is in progress, and its row is unlocked or under a lease that will expire. */
  ghost predicate Resting(v: View, name: string, input: Json, c: Command, k: nat) {
    && v.run.None? && v.row.name == name && (v.row.lockedBy.Some? ==> v.row.lockedUntil.Some?) && v.seen == []
    && FailedSoFar(v.log, input, c, k)
  }

  /** A run of it is executing the body of its first step. */
  ghost predicate Executing(v: View, id: Id, name: string, input: Json, c: Command, k: nat) {
    && v.run.Some? && v.row.name == name && v.row.status == RUNNING && v.seen == []
    && v.row.runAt <= v.now && v.row.lockedUntil.Some?
    && FailedSoFar(v.log, input, c, k) && First(v.log, AtStep(0, ScheduledKind)).Some?
    && var r := v.run.value;
      && r.wf == id && r.name == name && r.obs == [] && r.pc == BodyRunning
      && First(r.hist, IsStarted) == Some(Started(input, None)) && Count(r.hist, FailedAt(0)) == k
  }

  lemma CommandIs(code: Code, r: Run, name: string, input: Json, c: Command)
    requires BeginsWith(code, name, input, c) && r.name == name && r.obs == []
    requires First(r.hist, IsStarted) == Some(Started(input, None))
    ensures CommandOf(code, r) == c
  {
  }

  lemma LoadMove(code: Code, log: Log, now: Time, r: Run)
    requires r.pc.Claimed? && CanStep(code, r, Proceed)
    ensures Step(code, log, now, r, Proceed) == Move(NoTx, Some(r.(hist := log, obs := [], pc := Deciding)))
  {
    hide First;
  }

  lemma DecideMove(code: Code, log: Log, now: Time, r: Run, c: Command)
    requires r.pc.Deciding? && CanStep(code, r, Proceed) && CommandOf(code, r) == c && c.Activity? && r.obs == []
    requires First(r.hist, AtStep(0, CompletedKind)).None?
    requires First(r.hist, AtStep(0, ScheduledKind)).Some? ==>
      First(r.hist, AtStep(0, ScheduledKind)).value == Scheduled(0, c.name, SerializeArguments(c.call))
    ensures Step(code, log, now, r, Proceed) ==
      Move(if First(r.hist, AtStep(0, ScheduledKind)).Some? then NoTx
           else WriteEvent(r.wf, Scheduled(0, c.name, SerializeArguments(c.call))),
           Some(r.(pc := BodyReady)))
  {
    SameJsonReflexive(SerializeArguments(c.call));
    hide First, Count, FromJsonSafe, SerializeArguments, ToJsonSafe, SameJson;
  }

  lemma BeginMove(code: Code, log: Log, now: Time, r: Run)
    requires r.pc.BodyReady? && CanStep(code, r, Proceed)
    ensures Step(code, log, now, r, Proceed) == Move(NoTx, Some(r.(pc := BodyRunning)))
  {
    hide First;
  }

  lemma FailMove(code: Code, log: Log, now: Time, r: Run, error: string)
    requires r.pc.BodyRunning? && CanStep(code, r, Fails(error)) && r.obs == []
    ensures var k := Count(r.hist, FailedAt(0));
      Step(code, log, now, r, Fails(error)) ==
      Move(WriteEvent(r.wf, Failed(0, error, k)), Some(r.(pc := Retrying(error, k))))
  {
    hide First, Count;
  }

  lemma SettleMove(code: Code, log: Log, now: Time, r: Run, c: Command)
    requires r.pc.Retrying? && CanStep(code, r, Proceed) && CommandOf(code, r) == c && c.Activity?
    ensures Step(code, log, now, r, Proceed) ==
      if r.pc.attempt + 1 <= c.policy.maxRetries then Move(Reschedule(r.wf, now + c.policy.backoff), None)
      else Move(Finish(r.wf, ChildFailed(Exhausted(c.name, r.pc.error)), ParentOf(First(r.hist, IsStarted))), None)
  {
    hide First;
  }

  lemma SucceedMove(code: Code, log: Log, now: Time, r: Run, value: PyValue)
    requires r.pc.BodyRunning? && CanStep(code, r, Succeeds(value)) && r.obs == []
    ensures Step(code, log, now, r, Succeeds(value)) ==
      Move(WriteEvent(r.wf, Completed(0, ToJsonSafe(value), Count(r.hist, FailedAt(0)) + 1)),
           Some(r.Observe(Result(value))))
  {
    hide First, Count, ToJsonSafe;
  }

  /** From rest to the body: time passes until it is due, it is claimed, loaded and brought to its activity. */
  lemma Attempts(
    code: Code, cfg: Config, sch: Schedule, from: State, id: Id, v: View, name: string, input: Json, c: Command, k: nat)
    returns (u: View)
    requires Gets(code, cfg, sch, from, id, v) && sch.Exclusive? && BeginsWith(code, name, input, c)
    requires Resting(v, name, input, c, k) && v.row.status == RUNNING
    ensures Gets(code, cfg, sch, from, id, u) && Executing(u, id, name, input, c, k) && u.reopened == v.reopened
    ensures u.run.value.hist == v.log
    ensures u.log == v.log || u.log == v.log + [Scheduled(0, c.name, SerializeArguments(c.call))]
  {
    hide Gets, First, Count, SerializeArguments, Step, FlowOf;
    var due := if v.row.lockedBy.Some? && v.row.runAt <= v.row.lockedUntil.value then v.row.lockedUntil.value + 1
               else v.row.runAt;
    var elapsed := if due <= v.now then 0 else due - v.now;
    Ticks(code, cfg, sch, from, id, v, elapsed);
    var v1 := v.(now := v.now + elapsed);
    Claims(code, cfg, sch, from, id, v1);
    var v2 := Committed(v1, ClaimWorkflow(id, "worker"), cfg.lockDuration).(run := Some(FreshRun(cfg, id, v1)));
    var r2 := v2.run.value;
    LoadMove(code, v2.log, v2.now, r2);
    Steps(code, cfg, sch, from, id, v2, Proceed, Step(code, v2.log, v2.now, r2, Proceed));
    var r3 := r2.(hist := v.log, obs := [], pc := Deciding);
    var v3 := v2.(run := Some(r3));
    CommandIs(code, r3, name, input, c);
    DecideMove(code, v3.log, v3.now, r3, c);
    Steps(code, cfg, sch, from, id, v3, Proceed, Step(code, v3.log, v3.now, r3, Proceed));
    var r4 := r3.(pc := BodyReady);
    var e := Scheduled(0, c.name, SerializeArguments(c.call));
    var v4 := v3.(run := Some(r4), log := if First(v.log, AtStep(0, ScheduledKind)).Some? then v.log else v.log + [e]);
    CommandIs(code, r4, name, input, c);
    BeginMove(code, v4.log, v4.now, r4);
    Steps(code, cfg, sch, from, id, v4, Proceed, Step(code, v4.log, v4.now, r4, Proceed));
    u := v4.(run := Some(r4.(pc := BodyRunning)));
    AppendScans(v.log, e);
  }

  /** The body fails, and its FAILED event is written; how many attempts that makes is not yet acted upon. */
  lemma FailsFirst(
    code: Code, cfg: Config, sch: Schedule, from: State, id: Id, v: View, name: string, input: Json, c: Command, k: nat)
    returns (u: View)
    requires Gets(code, cfg, sch, from, id, v) && sch.Exclusive? && BeginsWith(code, name, input, c)
    requires Executing(v, id, name, input, c, k)
    ensures Gets(code, cfg, sch, from, id, u) && u == v.(run := u.run, log := v.log + [Failed(0, "error", k)])
    ensures u.run == Some(v.run.value.(pc := Retrying("error", k)))
    ensures FailedSoFar(u.log, input, c, k + 1) && CommandOf(code, u.run.value) == c
  {
    hide Gets, First, Count, SerializeArguments, Step, FlowOf;
    var r := v.run.value;
    CommandIs(code, r, name, input, c);
    FailMove(code, v.log, v.now, r, "error");
    Steps(code, cfg, sch, from, id, v, Fails("error"), Step(code, v.log, v.now, r, Fails("error")));
    u := Stepped(v, Step(code, v.log, v.now, r, Fails("error")), cfg.lockDuration);
    CommandIs(code, u.run.value, name, input, c);
    AppendScans(v.log, Failed(0, "error", k));
  }

  /** One more failure: within the limit the workflow is due again later, past it it fails. */
  lemma FailsOnce(
    code: Code, cfg: Config, sch: Schedule, from: State, id: Id, v: View, name: string, input: Json, c: Command, k: nat)
    returns (u: View)
    requires Gets(code, cfg, sch, from, id, v) && sch.Exclusive? && BeginsWith(code, name, input, c)
    requires Executing(v, id, name, input, c, k)
    ensures Gets(code, cfg, sch, from, id, u) && Resting(u, name, input, c, k + 1) && u.reopened == v.reopened
    ensures u.row.status == if k + 1 <= c.policy.maxRetries then RUNNING else FAILED
  {
    hide Gets, First, Count, SerializeArguments, Step, CommandOf;
    var v1 := FailsFirst(code, cfg, sch, from, id, v, name, input, c, k);
    var r := v1.run.value;
    SettleMove(code, v1.log, v1.now, r, c);
    var m := Step(code, v1.log, v1.now, r, Proceed);
    Steps(code, cfg, sch, from, id, v1, Proceed, m);
    u := Stepped(v1, m, cfg.lockDuration);
    AppendScans(v1.log, WorkflowFailed(Exhausted(c.name, "error")));
  }

  /** One failure past the limit, and a crash before the workflow is failed on account of it. */
  lemma FailsAndCrashes(
    code: Code, cfg: Config, sch: Schedule, from: State, id: Id, v: View, name: string, input: Json, c: Command, k: nat)
    returns (u: View)
    requires Gets(code, cfg, sch, from, id, v) && sch.Exclusive? && BeginsWith(code, name, input, c)
    requires Executing(v, id, name, input, c, k) && c.policy.maxRetries <= k
    ensures Gets(code, cfg, sch, from, id, u) && Resting(u, name, input, c, k + 1) && u.reopened == v.reopened + 1
    ensures u.row.status == RUNNING
  {
    hide Gets, First, Count, SerializeArguments, CommandOf, FailedSoFar;
    var v1 := FailsFirst(code, cfg, sch, from, id, v, name, input, c, k);
    Crashes(code, cfg, sch, from, id, v1);
    u := Crashed(code, v1);
  }

  // ----- More failures than the retry limit -----

  lemma {:induction false} FailsWithinLimit(
    code: Code, cfg: Config, now: Time, id: Id, name: string, input: Json, c: Command, k: nat)
    returns (v: View)
    requires RootId(id) && BeginsWith(code, name, input, c) && k <= c.policy.maxRetries + 1
    ensures Gets(code, cfg, Exclusive(true), Init(now), id, v) && Resting(v, name, input, c, k) && v.reopened == 0
    ensures v.row.status == if k <= c.policy.maxRetries then RUNNING else FAILED
  {
    if k == 0 {
      StartsAs(code, cfg, Exclusive(true), now, id, name, input);
      v := View(NewRow(name, None, now), [Started(input, None)], None, [], 0, now);
      AppendScans([], Started(input, None));
      assert [] + [Started(input, None)] == v.log;
    } else {
      hide Gets, Resting, Executing;
      v := FailsWithinLimit(code, cfg, now, id, name, input, c, k - 1);
      v := Attempts(code, cfg, Exclusive(true), Init(now), id, v, name, input, c, k - 1);
      v := FailsOnce(code, cfg, Exclusive(true), Init(now), id, v, name, input, c, k - 1);
    }
  }

  /** Past the limit each crash between the two commits of a failure buys one more attempt. */
  lemma {:induction false} FailsBeyondLimit(
    code: Code, cfg: Config, now: Time, id: Id, name: string, input: Json, c: Command, n: nat)
    returns (v: View)
    requires RootId(id) && BeginsWith(code, name, input, c)
    ensures Gets(code, cfg, Exclusive(true), Init(now), id, v) && v.reopened == n && v.row.status == RUNNING
    ensures Resting(v, name, input, c, c.policy.maxRetries + n)
  {
    hide Gets, Resting, Executing;
    if n == 0 {
      v := FailsWithinLimit(code, cfg, now, id, name, input, c, c.policy.maxRetries);
    } else {
      v := FailsBeyondLimit(code, cfg, now, id, name, input, c, n - 1);
      var k := c.policy.maxRetries + n - 1;
      v := Attempts(code, cfg, Exclusive(true), Init(now), id, v, name, input, c, k);
      v := FailsAndCrashes(code, cfg, Exclusive(true), Init(now), id, v, name, input, c, k);
    }
  }

  /**
   * The bound on failures is met for every number of reopenings, by crashes alone: whatever the code, a
   * workflow that begins with an activity can come to fail there max_retries + 1 + n times when n crashes
   * fall between a FAILED event and the commit that acts upon it.
   */
  lemma RetryBoundIsTight(
    code: Code, cfg: Config, now: Time, id: Id, name: string, input: Json, c: Command, n: nat)
    requires RootId(id) && BeginsWith(code, name, input, c)
    ensures exists s ::
      && Reachable(code, cfg, Exclusive(true), s) && id in s.store.rows
      && s.Seen(id) == [] && FlowAt(code, s, id)([]) == c && s.audit.reopened[id] == n
      && Count(s.Log(id), AtStep(0, FailedKind)) == c.policy.maxRetries + 1 + n
  {
    hide Leads, First, Count, SerializeArguments, Gets, Shows, Resting, Executing;
    var v := FailsBeyondLimit(code, cfg, now, id, name, input, c, n);
    var k := c.policy.maxRetries + n;
    v := Attempts(code, cfg, Exclusive(true), Init(now), id, v, name, input, c, k);
    v := FailsOnce(code, cfg, Exclusive(true), Init(now), id, v, name, input, c, k);
    ShownFailures(code, cfg, now, id, v, name, input, c, k + 1);
  }

  lemma ShownFailures(
    code: Code, cfg: Config, now: Time, id: Id, v: View, name: string, input: Json, c: Command, k: nat)
    requires Gets(code, cfg, Exclusive(true), Init(now), id, v) && Resting(v, name, input, c, k)
    requires BeginsWith(code, name, input, c)
    ensures exists s ::
      && Reachable(code, cfg, Exclusive(true), s) && id in s.store.rows
      && s.Seen(id) == [] && FlowAt(code, s, id)([]) == c && s.audit.reopened[id] == v.reopened
      && Count(s.Log(id), AtStep(0, FailedKind)) == k
  {
    hide Leads, First, Count, SerializeArguments;
    var s :| Leads(code, cfg, Exclusive(true), Init(now), s) && Shows(s, id, v);
    assert Reachable(code, cfg, Exclusive(true), s);
  }

  // ----- A finished workflow runs again -----

  predicate ReturnsAtOnce(code: Code, name: string, input: Json, result: Json) {
    name in code.registry && code.registry[name](input)([]) == Return(result)
  }

  ghost predicate Unstarted(v: View, name: string, input: Json) {
    && v.run.None? && v.row.name == name && v.row.lockedBy.None? && v.row.status == RUNNING
    && v.row.runAt <= v.now && v.seen == [] && First(v.log, IsStarted) == Some(Started(input, None))
  }

  lemma ReturnMove(code: Code, log: Log, now: Time, r: Run, result: Json)
    requires r.pc.Deciding? && CanStep(code, r, Proceed) && CommandOf(code, r) == Return(result)
    ensures Step(code, log, now, r, Proceed) ==
      Move(Finish(r.wf, ChildCompleted(result), ParentOf(First(r.hist, IsStarted))), None)
  {
    hide First;
  }

  /** Claimed, loaded, returned: one terminal event more. */
  lemma Completes(
    code: Code, cfg: Config, sch: Schedule, from: State, id: Id, v: View, name: string, input: Json, result: Json)
    returns (u: View)
    requires Gets(code, cfg, sch, from, id, v) && sch.Exclusive? && ReturnsAtOnce(code, name, input, result)
    requires Unstarted(v, name, input)
    ensures Gets(code, cfg, sch, from, id, u) && u.log == v.log + [WorkflowCompleted(result)]
    ensures u.run.None? && u.row == v.row.(status := COMPLETED).Unlocked() && u.now == v.now && u.seen == []
  {
    hide Gets, First, Count, Step;
    Claims(code, cfg, sch, from, id, v);
    var v1 := Committed(v, ClaimWorkflow(id, "worker"), cfg.lockDuration).(run := Some(FreshRun(cfg, id, v)));
    LoadMove(code, v1.log, v1.now, v1.run.value);
    Steps(code, cfg, sch, from, id, v1, Proceed, Step(code, v1.log, v1.now, v1.run.value, Proceed));
    var r := v1.run.value.(hist := v.log, obs := [], pc := Deciding);
    var v2 := v1.(run := Some(r));
    ReturnMove(code, v2.log, v2.now, r, result);
    Steps(code, cfg, sch, from, id, v2, Proceed, Step(code, v2.log, v2.now, r, Proceed));
    u := Stepped(v2, Step(code, v2.log, v2.now, r, Proceed), cfg.lockDuration);
  }

  /**
   * A terminal status is not final: a signal sets a completed workflow running again, and its next run
   * writes a second terminal event.
   */
  lemma FinishedWorkflowReopens(
    code: Code, cfg: Config, now: Time, id: Id, name: string, input: Json, result: Json, t: string, payload: Json)
    requires RootId(id) && ReturnsAtOnce(code, name, input, result)
    ensures exists s ::
      && Reachable(code, cfg, Exclusive(true), s) && s.store.Has(id) && s.store.rows[id].status == COMPLETED
      && Enabled(code, s, SendSignal(id, t, payload)) && Permits(code, Exclusive(true), s, SendSignal(id, t, payload))
      && Apply(code, cfg, s, SendSignal(id, t, payload)).store.rows[id].status == RUNNING
    ensures exists s :: Reachable(code, cfg, Exclusive(true), s) && Count(s.Log(id), Terminal) == 2
  {
    hide Leads, First, Count, Matches;
    StartsAs(code, cfg, Exclusive(true), now, id, name, input);
    var v := View(NewRow(name, None, now), [Started(input, None)], None, [], 0, now);
    StartedScans(input);
    v := Completes(code, cfg, Exclusive(true), Init(now), id, v, name, input, result);
    var s :| Leads(code, cfg, Exclusive(true), Init(now), s) && Shows(s, id, v);
    assert Reachable(code, cfg, Exclusive(true), s);
    SignalsFinished(code, cfg, s, id, v, t, payload);
    Signals(code, cfg, Exclusive(true), Init(now), id, v, t, payload);
    var w := Committed(v, WriteSignal(id, t, payload), cfg.lockDuration);
    TwoEndings(input, result, t, payload);
    w := Completes(code, cfg, Exclusive(true), Init(now), id, w, name, input, result);
    var u :| Leads(code, cfg, Exclusive(true), Init(now), u) && Shows(u, id, w);
    assert Reachable(code, cfg, Exclusive(true), u);
  }

  lemma StartedScans(input: Json)
    ensures First([Started(input, None)], IsStarted) == Some(Started(input, None))
  {
    AppendScans([], Started(input, None));
    assert [] + [Started(input, None)] == [Started(input, None)];
  }

  lemma TwoEndings(input: Json, result: Json, t: string, payload: Json)
    ensures var log := [Started(input, None)] + [WorkflowCompleted(result)] + [Signal(t, payload)];
      First(log, IsStarted) == Some(Started(input, None)) && Count(log + [WorkflowCompleted(result)], Terminal) == 2
  {
    var a, e, g := [Started(input, None)], WorkflowCompleted(result), Signal(t, payload);
    StartedScans(input);
    AppendScans([], a[0]);
    assert [] + [a[0]] == a;
    AppendScans(a, e);
    AppendScans(a + [e], g);
    AppendScans(a + [e] + [g], e);
  }

  lemma SignalsFinished(code: Code, cfg: Config, s: State, id: Id, v: View, t: string, payload: Json)
    requires Shows(s, id, v)
    ensures Enabled(code, s, SendSignal(id, t, payload)) && Permits(code, Exclusive(true), s, SendSignal(id, t, payload))
    ensures Apply(code, cfg, s, SendSignal(id, t, payload)).store.rows[id].status == RUNNING
  {
  }

  // ----- A replay that gives another value -----

  /**
   * One run is given the value the body returned, its worker crashes, and the next run of the workflow is
   * given what the annotation makes of the stored result: whatever the code, the value and the annotation.
   */
  lemma ReplayGivesTheRestoredValue(
    code: Code, cfg: Config, now: Time, id: Id, name: string, input: Json, c: Command, value: PyValue)
    requires RootId(id) && BeginsWith(code, name, input, c)
    ensures exists s, t ::
      && Reachable(code, cfg, Exclusive(false), s) && Leads(code, cfg, Exclusive(false), s, t)
      && 0 in s.runs && s.runs[0].wf == id && s.runs[0].obs == [Result(value)]
      && 0 in t.runs && t.runs[0].wf == id
      && t.runs[0].obs == [RestoredResult(code.classes, ToJsonSafe(value), c.annotation)]
  {
    hide Leads, Gets, First, Count, SerializeArguments, ToJsonSafe, FromJsonSafe, RestoredResult, Step, FlowOf;
    var sch := Exclusive(false);
    StartsAs(code, cfg, sch, now, id, name, input);
    var v := View(NewRow(name, None, now), [Started(input, None)], None, [], 0, now);
    FreshIsResting(v, name, input, c);
    v := Attempts(code, cfg, sch, Init(now), id, v, name, input, c, 0);
    var r := v.run.value;
    CommandIs(code, r, name, input, c);
    SucceedMove(code, v.log, v.now, r, value);
    Steps(code, cfg, sch, Init(now), id, v, Succeeds(value), Step(code, v.log, v.now, r, Succeeds(value)));
    var given := Stepped(v, Step(code, v.log, v.now, r, Succeeds(value)), cfg.lockDuration);
    assert [] + [Result(value)] == [Result(value)];
    assert given == v.(run := Some(r.Observe(Result(value))), seen := [Result(value)],
                       log := v.log + [Completed(0, ToJsonSafe(value), 1)]);
    AppendScans(v.log, Completed(0, ToJsonSafe(value), 1));
    var s := ShownBy(code, cfg, sch, Init(now), id, given);
    assert Reachable(code, cfg, sch, s);
    GetsItself(code, cfg, sch, s, id, given);
    var again := Replays(code, cfg, sch, s, id, given, name, input, c);
    var t := ShownBy(code, cfg, sch, s, id, again);
  }

  /**
   * So without restorable results replay is not transparent. For an activity without a return annotation
   * that is the case for every value that JSON does not hold as it is.
   */
  lemma UnannotatedReplayDiffers(
    code: Code, cfg: Config, now: Time, id: Id, name: string, input: Json, c: Command, value: PyValue)
    requires RootId(id) && BeginsWith(code, name, input, c) && c.annotation.AAny?
    requires ProperDicts(value) && !Plain(value)
    ensures exists s, t ::
      && Reachable(code, cfg, Exclusive(false), s) && Leads(code, cfg, Exclusive(false), s, t)
      && 0 in s.runs && s.runs[0].wf == id && 0 in t.runs && t.runs[0].wf == id
      && |s.runs[0].obs| == |t.runs[0].obs| == 1 && s.runs[0].obs[0] != t.runs[0].obs[0]
  {
    hide Leads, Reachable, ToJsonSafe, FromJsonSafe, Plain, ProperDicts;
    ReplayGivesTheRestoredValue(code, cfg, now, id, name, input, c, value);
    AnyRestoresExactlyPlain(code.classes, value);
  }

  /** A returned tuple is a list after the crash. */
  lemma TupleReplaysAsAList(
    code: Code, cfg: Config, now: Time, id: Id, name: string, input: Json, c: Command, items: seq<PyValue>)
    requires RootId(id) && BeginsWith(code, name, input, c) && c.annotation.AAny?
    requires forall i :: 0 <= i < |items| ==> Plain(items[i]) && ProperDicts(items[i])
    ensures exists s, t ::
      && Reachable(code, cfg, Exclusive(false), s) && Leads(code, cfg, Exclusive(false), s, t)
      && 0 in s.runs && s.runs[0].wf == id && s.runs[0].obs == [Result(PTuple(items))]
      && 0 in t.runs && t.runs[0].wf == id && t.runs[0].obs == [Result(PList(items))]
  {
    hide Leads, Reachable;
    ReplayGivesTheRestoredValue(code, cfg, now, id, name, input, c, PTuple(items));
    PlainIsRaw(PList(items));
    assert ToJsonSafe(PTuple(items)) == ToJsonSafe(PList(items));
  }

  /** After the activity `c` the code calls one thing for the value itself and another for the restored one. */
  predicate TellsApart(code: Code, name: string, input: Json, c: Command, value: PyValue) {
    && BeginsWith(code, name, input, c)
    && var w := code.registry[name](input);
      var d, e := w([Result(value)]), w([RestoredResult(code.classes, ToJsonSafe(value), c.annotation)]);
      && d.Activity? && e.Activity? && (d.name != e.name || !SameJson(SerializeArguments(d.call), SerializeArguments(e.call)))
  }

  lemma CommandAfter(code: Code, r: Run, name: string, input: Json)
    requires name in code.registry && r.name == name && First(r.hist, IsStarted) == Some(Started(input, None))
    ensures CommandOf(code, r) == code.registry[name](input)(r.obs)
  {
  }

  lemma ScheduleMove(code: Code, log: Log, now: Time, r: Run, c: Command)
    requires r.pc.Deciding? && CanStep(code, r, Proceed) && CommandOf(code, r) == c && c.Activity?
    requires First(r.hist, AtStep(r.At(), CompletedKind)).None? && First(r.hist, AtStep(r.At(), ScheduledKind)).None?
    ensures Step(code, log, now, r, Proceed) ==
      Move(WriteEvent(r.wf, Scheduled(r.At(), c.name, SerializeArguments(c.call))), Some(r.(pc := BodyReady)))
  {
    hide First, Count, FromJsonSafe, SerializeArguments, ToJsonSafe;
  }

  lemma DivergeMove(code: Code, log: Log, now: Time, r: Run, c: Command, e: Event)
    requires r.pc.Deciding? && CanStep(code, r, Proceed) && CommandOf(code, r) == c && c.Activity?
    requires First(r.hist, AtStep(r.At(), CompletedKind)).None? && First(r.hist, AtStep(r.At(), ScheduledKind)) == Some(e)
    requires e.name != c.name || !SameJson(e.call, SerializeArguments(c.call))
    ensures Step(code, log, now, r, Proceed) ==
      Move(Finish(r.wf, ChildFailed(Diverged(r.At())), ParentOf(First(r.hist, IsStarted))), None)
  {
    hide First, Count, FromJsonSafe, SerializeArguments, ToJsonSafe;
  }

  /** One run goes on with the value as far as its next call, and crashes when that is scheduled. */
  lemma SchedulesNext(
    code: Code, cfg: Config, now: Time, id: Id, name: string, input: Json, c: Command, value: PyValue)
    returns (v: View)
    requires RootId(id) && TellsApart(code, name, input, c, value)
    ensures Gets(code, cfg, Exclusive(false), Init(now), id, v)
    ensures v.run.Some? && v.run.value.wf == id && v.row.name == name && v.row.status == RUNNING
    ensures v.row.runAt <= v.now && v.row.lockedUntil.Some? && |v.seen| >= 1
    ensures var d := code.registry[name](input)([Result(value)]);
      && First(v.log, IsStarted) == Some(Started(input, None)) && First(v.log, AtStep(1, CompletedKind)).None?
      && First(v.log, AtStep(0, CompletedKind)) == Some(Completed(0, ToJsonSafe(value), 1))
      && First(v.log, AtStep(1, ScheduledKind)) == Some(Scheduled(1, d.name, SerializeArguments(d.call)))
  {
    hide Gets, First, Count, SerializeArguments, ToJsonSafe, FromJsonSafe, RestoredResult, Step, FlowOf;
    var sch, d := Exclusive(false), code.registry[name](input)([Result(value)]);
    StartsAs(code, cfg, sch, now, id, name, input);
    v := View(NewRow(name, None, now), [Started(input, None)], None, [], 0, now);
    FreshIsResting(v, name, input, c);
    var start := v.log;
    v := Attempts(code, cfg, sch, Init(now), id, v, name, input, c, 0);
    var r := v.run.value;
    CommandIs(code, r, name, input, c);
    SucceedMove(code, v.log, v.now, r, value);
    Steps(code, cfg, sch, Init(now), id, v, Succeeds(value), Step(code, v.log, v.now, r, Succeeds(value)));
    var completed := Completed(0, ToJsonSafe(value), 1);
    var r1 := r.Observe(Result(value));
    assert r1.obs == [Result(value)];
    var v1 := v.(run := Some(r1), seen := r1.obs, log := v.log + [completed]);
    CommandAfter(code, r1, name, input);
    StepOneIsNew(start, v.log, c, completed, Scheduled(1, d.name, SerializeArguments(d.call)));
    assert r1.At() == 1 && r1.hist == start;
    ScheduleMove(code, v1.log, v1.now, r1, d);
    Steps(code, cfg, sch, Init(now), id, v1, Proceed, Step(code, v1.log, v1.now, r1, Proceed));
    v := v1.(run := Some(r1.(pc := BodyReady)), log := v1.log + [Scheduled(1, d.name, SerializeArguments(d.call))]);
  }

  lemma StepOneIsNew(start: Log, log: Log, c: Command, completed: Event, e: Event)
    requires |start| == 1 && start[0].Started? && c.Activity? && completed.Completed? && completed.step == 0
    requires log == start || log == start + [Scheduled(0, c.name, SerializeArguments(c.call))]
    requires e.Scheduled? && e.step == 1
    ensures First(start, AtStep(1, CompletedKind)).None? && First(start, AtStep(1, ScheduledKind)).None?
    ensures var more := log + [completed] + [e];
      && First(more, IsStarted) == Some(start[0]) && First(more, AtStep(1, CompletedKind)).None?
      && First(more, AtStep(0, CompletedKind)) == Some(completed) && First(more, AtStep(1, ScheduledKind)) == Some(e)
  {
    hide SerializeArguments;
    AppendScans([], start[0]);
    assert [] + [start[0]] == start;
    AppendScans(start, Scheduled(0, c.name, SerializeArguments(c.call)));
    AppendScans(log, completed);
    AppendScans(log + [completed], e);
    assert forall q: Query :: First([], q).None?;
    hide First, Count;
  }

  /**
   * Nor is divergence then reported only for changed code: where the code tells a value from the restored
   * one by calling something else, a crash at that call makes its next run fail the workflow.
   */
  lemma UnchangedCodeDiverges(
    code: Code, cfg: Config, now: Time, id: Id, name: string, input: Json, c: Command, value: PyValue)
    requires RootId(id) && TellsApart(code, name, input, c, value)
    ensures exists s ::
      && Reachable(code, cfg, Exclusive(false), s) && s.store.Has(id) && s.store.rows[id].status == FAILED
      && s.Log(id) != [] && s.Log(id)[|s.Log(id)| - 1] == WorkflowFailed(Diverged(1))
  {
    hide Leads, Gets, First, Count, SerializeArguments, ToJsonSafe, FromJsonSafe, RestoredResult, Step, FlowOf;
    var sch := Exclusive(false);
    var v := SchedulesNext(code, cfg, now, id, name, input, c, value);
    var u := Replays(code, cfg, sch, Init(now), id, v, name, input, c);
    var r := u.run.value;
    CommandAfter(code, r, name, input);
    var scheduled := First(v.log, AtStep(1, ScheduledKind)).value;
    DivergeMove(code, u.log, u.now, r, CommandOf(code, r), scheduled);
    var m := Step(code, u.log, u.now, r, Proceed);
    Steps(code, cfg, sch, Init(now), id, u, Proceed, m);
    var ended := Stepped(u, m, cfg.lockDuration);
    var s := ShownBy(code, cfg, sch, Init(now), id, ended);
    assert Reachable(code, cfg, sch, s);
  }

  lemma GetsItself(code: Code, cfg: Config, sch: Schedule, s: State, id: Id, v: View)
    requires Shows(s, id, v)
    ensures Gets(code, cfg, sch, s, id, v)
  {
    hide Leads, Shows;
    LeadsNowhere(code, cfg, sch, s);
  }

  lemma ReplayMove(code: Code, log: Log, now: Time, r: Run, c: Command, e: Event)
    requires r.pc.Deciding? && CanStep(code, r, Proceed) && CommandOf(code, r) == c && c.Activity? && r.obs == []
    requires e.Completed? && First(r.hist, AtStep(0, CompletedKind)) == Some(e)
    ensures Step(code, log, now, r, Proceed) ==
      Move(NoTx, Some(r.Observe(RestoredResult(code.classes, e.result, c.annotation))))
  {
    hide First, Count, FromJsonSafe, SerializeArguments, ToJsonSafe;
  }

  /** The worker crashes, its lease expires, and the next run is handed the recorded result. */
  lemma Replays(
    code: Code, cfg: Config, sch: Schedule, from: State, id: Id, v: View, name: string, input: Json, c: Command)
    returns (u: View)
    requires Gets(code, cfg, sch, from, id, v) && sch.Exclusive? && BeginsWith(code, name, input, c)
    requires v.run.Some? && v.run.value.wf == id && v.row.name == name && v.row.status == RUNNING
    requires v.row.runAt <= v.now && v.row.lockedUntil.Some? && |v.seen| >= 1
    requires First(v.log, IsStarted) == Some(Started(input, None)) && First(v.log, AtStep(0, CompletedKind)).Some?
    ensures Gets(code, cfg, sch, from, id, u) && u.run.Some? && u.run.value.wf == id
    ensures var e := First(v.log, AtStep(0, CompletedKind)).value;
      u.run.value.obs == [RestoredResult(code.classes, e.result, c.annotation)]
    ensures u.log == u.run.value.hist == v.log && u.run.value.name == name && u.run.value.pc.Deciding?
  {
    hide Gets, First, Count, Step, FlowOf, RestoredResult, OutOfRetries;
    Crashes(code, cfg, sch, from, id, v);
    var v0 := Crashed(code, v);
    var elapsed := if v.row.lockedUntil.value < v.now then 0 else v.row.lockedUntil.value - v.now + 1;
    Ticks(code, cfg, sch, from, id, v0, elapsed);
    var v1 := v0.(now := v.now + elapsed);
    Claims(code, cfg, sch, from, id, v1);
    var v2 := Committed(v1, ClaimWorkflow(id, "worker"), cfg.lockDuration).(run := Some(FreshRun(cfg, id, v1)));
    var r2 := v2.run.value;
    LoadMove(code, v2.log, v2.now, r2);
    Steps(code, cfg, sch, from, id, v2, Proceed, Step(code, v2.log, v2.now, r2, Proceed));
    var r3 := r2.(hist := v.log, obs := [], pc := Deciding);
    var v3 := v2.(run := Some(r3));
    CommandIs(code, r3, name, input, c);
    var e := First(v.log, AtStep(0, CompletedKind)).value;
    ReplayMove(code, v3.log, v3.now, r3, c, e);
    var m := Step(code, v3.log, v3.now, r3, Proceed);
    Steps(code, cfg, sch, from, id, v3, Proceed, m);
    u := Stepped(v3, m, cfg.lockDuration);
    assert [] + [RestoredResult(code.classes, e.result, c.annotation)] == u.run.value.obs;
  }

  lemma ShownBy(code: Code, cfg: Config, sch: Schedule, from: State, id: Id, v: View) returns (s: State)
    requires Gets(code, cfg, sch, from, id, v)
    ensures Leads(code, cfg, sch, from, s) && Shows(s, id, v)
  {
    hide Leads, Shows;
    s :| Leads(code, cfg, sch, from, s) && Shows(s, id, v);
  }

  lemma FreshIsResting(v: View, name: string, input: Json, c: Command)
    requires v.run.None? && v.row.name == name && v.row.lockedBy.None? && v.seen == [] && v.log == [Started(input, None)]
    requires c.Activity?
    ensures Resting(v, name, input, c, 0)
  {
    AppendScans([], Started(input, None));
    assert [] + [Started(input, None)] == v.log;
  }
}
