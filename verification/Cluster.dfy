/**
 * The whole system: durable store, clock, and every run in progress on any worker. Each action is
 * one committed transaction, one local move, one crash or the passing of time; a behaviour is any
 * interleaving of actions.
 */
module Cluster {
  import opened Wrappers
  import opened Ids
  import opened Serialization
  import opened Events
  import opened Transactions
  import opened Workflows
  import opened Machine

  /** Lease timing: lock duration, heartbeat interval, and the longest delay of a heartbeat. */
  datatype Config = Config(lockDuration: Time, heartbeatInterval: Time, maxDelay: Time)

  type RunId = nat

  /** Counters that no code reads; they let theorems speak about whole behaviours. */
  datatype Audit = Audit(
    begun: multiset<(Id, nat)>,   // activity bodies started, per step
    lost: multiset<(Id, nat)>,    // bodies cut off by a crash before their outcome was recorded
    reopened: multiset<Id>,       // ways past an exhausted step: crash before the failure commit, wake of a FAILED row
    awaited: map<Id, set<Query>>) // what a row was marked as waiting for since it was last woken or ended

  /** `seen` keeps, per workflow, the longest result sequence any run has been given; no code reads it. */
  datatype State = State(
    store: Store,
    now: Time,
    runs: map<RunId, Run>,
    seen: map<Id, seq<Obs>>,
    audit: Audit)
  {
    function Log(id: Id): Log { store.Log(id) }

    function Seen(id: Id): seq<Obs> {
      if id in seen then seen[id] else []
    }

    function Awaited(id: Id): set<Query> {
      if id in audit.awaited then audit.awaited[id] else {}
    }
  }

  datatype Action =
    | Start(id: Id, name: string, input: Json)
    | SendSignal(id: Id, signalType: string, payload: Json)
    | Tick(elapsed: nat)
    | Claim(rid: RunId, worker: string, id: Id)
    | Beat(rid: RunId)
    | StrayBeat(id: Id)
    | Crash(rid: RunId)
    | Progress(rid: RunId, choice: Choice)

  function Init(now: Time): State {
    State(Empty, now, map[], map[], Audit(multiset{}, multiset{}, multiset{}, map[]))
  }

  /** The flow of a workflow, as any run that has loaded its history resolves it. */
  function FlowAt(code: Code, s: State, id: Id): Workflow
    requires id in s.store.rows
  {
    FlowOf(code, s.store.rows[id].name, First(s.Log(id), IsStarted))
  }

  predicate CanStep(code: Code, r: Run, choice: Choice) {
    PcFits(r.pc, CommandOf(code, r)) && (r.pc.BodyRunning? <==> !choice.Proceed?)
  }

  function MoveOf(code: Code, s: State, r: Run, choice: Choice): Move
    requires CanStep(code, r, choice)
  {
    Step(code, s.Log(r.wf), s.now, r, choice)
  }

  /** A run's transactions are about its own row; it goes on only after those that leave the row as it is. */
  lemma MoveShape(code: Code, s: State, r: Run, choice: Choice)
    requires CanStep(code, r, choice)
    ensures var m := MoveOf(code, s, r, choice);
      && !m.tx.CreateWorkflow? && !m.tx.ClaimWorkflow? && !m.tx.ExtendLock? && !m.tx.WriteSignal?
      && (m.tx.WriteEvent? || m.tx.Reschedule? || m.tx.MarkWaiting? || m.tx.Finish? ==> m.tx.id == r.wf)
      && (m.tx.CreateChild? ==> m.tx.parent == r.wf && m.tx.child == ChildId(r.wf, r.At()) && m.next.Some?)
      && (m.tx.Finish? || m.tx.Reschedule? ==> m.next.None?)
      && (m.tx.MarkWaiting? && m.next.Some? ==> First(s.Log(r.wf), m.tx.awaited).Some?)
      && (m.next.Some? ==>
            && m.next.value.wf == r.wf && m.next.value.worker == r.worker && m.next.value.due == r.due
            && !m.next.value.pc.Claimed?)
  {
    hide First, Count, ChildId, SerializeArguments, ToJsonSafe, Lookup, Settles;
  }

  predicate Enabled(code: Code, s: State, a: Action) {
    match a
    case Start(id, _, _) => RootId(id) && id !in s.store.rows && id !in s.store.logs
    case SendSignal(id, _, _) => s.store.Has(id)
    case Tick(_) => true
    case Claim(rid, _, id) => rid !in s.runs && s.store.Has(id) && s.store.rows[id].Claimable(s.now)
    case Beat(rid) => rid in s.runs && s.store.Has(s.runs[rid].wf)
    case StrayBeat(id) => s.store.Has(id)
    case Crash(rid) => rid in s.runs
    case Progress(rid, choice) =>
      && rid in s.runs && CanStep(code, s.runs[rid], choice)
      && Valid(s.store, MoveOf(code, s, s.runs[rid], choice).tx)
  }

  /** The transaction an action commits. */
  function TxOf(code: Code, s: State, a: Action): Tx
    requires Enabled(code, s, a)
  {
    match a
    case Start(id, name, input) => CreateWorkflow(id, name, input)
    case SendSignal(id, t, payload) => WriteSignal(id, t, payload)
    case Tick(_) => NoTx
    case Claim(_, worker, id) => ClaimWorkflow(id, worker)
    case Beat(rid) => ExtendLock(s.runs[rid].wf)
    case StrayBeat(id) => ExtendLock(id)
    case Crash(_) => NoTx
    case Progress(rid, choice) => MoveOf(code, s, s.runs[rid], choice).tx
  }

  function RunsAfter(code: Code, cfg: Config, s: State, a: Action): map<RunId, Run>
    requires Enabled(code, s, a)
  {
    match a
    case Claim(rid, worker, id) =>
      s.runs[rid := Run(id, worker, s.store.rows[id].name, [], [], Claimed, s.now + cfg.heartbeatInterval + cfg.maxDelay)]
    case Beat(rid) =>
      s.runs[rid := s.runs[rid].(due := s.now + cfg.heartbeatInterval + cfg.maxDelay)]
    case Crash(rid) => s.runs - {rid}
    case Progress(rid, choice) =>
      (match MoveOf(code, s, s.runs[rid], choice).next
       case Some(r) => s.runs[rid := r]
       case None => s.runs - {rid})
    case _ => s.runs
  }

  function SeenAfter(code: Code, s: State, a: Action): map<Id, seq<Obs>>
    requires Enabled(code, s, a)
  {
    if !a.Progress? then s.seen
    else
      match MoveOf(code, s, s.runs[a.rid], a.choice).next
      case None => s.seen
      case Some(r) => if |s.Seen(r.wf)| < |r.obs| then s.seen[r.wf := r.obs] else s.seen
  }

  /** The FAILED rows a transaction sets running again. */
  function Reopens(s: Store, tx: Tx): multiset<Id> {
    match tx
    case WriteSignal(id, _, _) =>
      if id in s.rows && s.rows[id].status == FAILED then multiset{id} else multiset{}
    case Finish(_, _, parentInfo) =>
      if parentInfo.Some? && parentInfo.value.workflowId in s.rows && s.rows[parentInfo.value.workflowId].status == FAILED
      then multiset{parentInfo.value.workflowId} else multiset{}
    case _ => multiset{}
  }

  predicate OutOfRetries(code: Code, r: Run) {
    r.pc.Retrying? && CommandOf(code, r).Activity? && CommandOf(code, r).policy.maxRetries <= r.pc.attempt
  }

  /** The body an action starts. */
  function Begins(s: State, a: Action): multiset<(Id, nat)> {
    if a.Progress? && a.rid in s.runs && s.runs[a.rid].pc.BodyReady?
    then multiset{(s.runs[a.rid].wf, s.runs[a.rid].At())} else multiset{}
  }

  /** What rows are marked for after a transaction: a mark adds its event, a wake or an end starts afresh. */
  function AwaitedAfter(s: State, tx: Tx): map<Id, set<Query>> {
    match tx
    case MarkWaiting(id, awaited) =>
      if First(s.Log(id), awaited).Some? then s.audit.awaited else s.audit.awaited[id := s.Awaited(id) + {awaited}]
    case WriteSignal(id, _, _) => s.audit.awaited[id := {}]
    case Finish(id, _, parentInfo) =>
      if parentInfo.Some? then s.audit.awaited[id := {}][parentInfo.value.workflowId := {}] else s.audit.awaited[id := {}]
    case _ => s.audit.awaited
  }

  function AuditAfter(code: Code, s: State, a: Action): Audit
    requires Enabled(code, s, a)
  {
    if a.Crash? then
      var r := s.runs[a.rid];
      s.audit.(lost := s.audit.lost + if r.pc.BodyRunning? then multiset{(r.wf, r.At())} else multiset{},
               reopened := s.audit.reopened + if OutOfRetries(code, r) then multiset{r.wf} else multiset{})
    else
      s.audit.(begun := s.audit.begun + Begins(s, a), reopened := s.audit.reopened + Reopens(s.store, TxOf(code, s, a)),
               awaited := AwaitedAfter(s, TxOf(code, s, a)))
  }

  function Apply(code: Code, cfg: Config, s: State, a: Action): State
    requires Enabled(code, s, a)
  {
    State(
      Commit(s.store, s.now, cfg.lockDuration, TxOf(code, s, a)),
      if a.Tick? then s.now + a.elapsed else s.now,
      RunsAfter(code, cfg, s, a),
      SeenAfter(code, s, a),
      AuditAfter(code, s, a))
  }

  // ----- Behaviours -----

  /** What a behaviour may rely on besides the code itself. */
  datatype Schedule =
    | AnySchedule                  // every interleaving, overlapping runs of one workflow included
    | Exclusive(restorable: bool)  // a workflow is claimed only while no run of it is in progress
    | Timely(restorable: bool)     // no clock tick overtakes the next heartbeat of a live run

  predicate Idle(s: State, id: Id) {
    forall rid :: rid in s.runs ==> s.runs[rid].wf != id
  }

  /** An activity result that its return annotation brings back unchanged. */
  predicate RestorableOutcome(code: Code, s: State, a: Action) {
    a.Progress? && a.choice.Succeeds? && a.rid in s.runs ==>
      var c := CommandOf(code, s.runs[a.rid]);
      c.Activity? ==> RestoredResult(code.classes, ToJsonSafe(a.choice.value), c.annotation) == Result(a.choice.value)
  }

  predicate Permits(code: Code, sch: Schedule, s: State, a: Action) {
    match sch
    case AnySchedule => true
    case Exclusive(restorable) =>
      && (restorable ==> RestorableOutcome(code, s, a))
      && (a.Claim? ==> Idle(s, a.id))
    case Timely(restorable) =>
      && (restorable ==> RestorableOutcome(code, s, a))
      && (a.Tick? ==> forall rid :: rid in s.runs ==> s.now + a.elapsed <= s.runs[rid].due)
  }

  ghost predicate Legal(code: Code, cfg: Config, sch: Schedule, s: State, acts: seq<Action>)
    decreases |acts|
  {
    acts == [] || (
      && Enabled(code, s, acts[0]) && Permits(code, sch, s, acts[0])
      && Legal(code, cfg, sch, Apply(code, cfg, s, acts[0]), acts[1..]))
  }

  ghost function Final(code: Code, cfg: Config, sch: Schedule, s: State, acts: seq<Action>): State
    requires Legal(code, cfg, sch, s, acts)
    decreases |acts|
  {
    if acts == [] then s else Final(code, cfg, sch, Apply(code, cfg, s, acts[0]), acts[1..])
  }

  lemma {:induction false} LegalAppend(code: Code, cfg: Config, sch: Schedule, s: State, acts: seq<Action>, a: Action)
    requires Legal(code, cfg, sch, s, acts)
    requires Enabled(code, Final(code, cfg, sch, s, acts), a) && Permits(code, sch, Final(code, cfg, sch, s, acts), a)
    ensures Legal(code, cfg, sch, s, acts + [a])
    ensures Final(code, cfg, sch, s, acts + [a]) == Apply(code, cfg, Final(code, cfg, sch, s, acts), a)
    decreases |acts|
  {
    hide Apply, Enabled, Permits;
    if acts != [] {
      LegalAppend(code, cfg, sch, Apply(code, cfg, s, acts[0]), acts[1..], a);
      assert (acts + [a])[1..] == acts[1..] + [a];
    } else {
      assert [a][1..] == [];
    }
  }

  // ----- Reachable states -----

  /** The states a behaviour passes through, with the action between each and the next. */
  ghost predicate Trace(code: Code, cfg: Config, sch: Schedule, states: seq<State>, acts: seq<Action>) {
    && |states| == |acts| + 1
    && forall i {:trigger acts[i]} :: 0 <= i < |acts| ==>
      && Enabled(code, states[i], acts[i]) && Permits(code, sch, states[i], acts[i])
      && states[i + 1] == Apply(code, cfg, states[i], acts[i])
  }

  ghost predicate Leads(code: Code, cfg: Config, sch: Schedule, s: State, t: State) {
    exists states, acts {:trigger Trace(code, cfg, sch, states, acts)} ::
      Trace(code, cfg, sch, states, acts) && states[0] == s && states[|acts|] == t
  }

  ghost predicate Reachable(code: Code, cfg: Config, sch: Schedule, s: State) {
    exists now {:trigger Init(now)} :: Leads(code, cfg, sch, Init(now), s)
  }

  lemma {:induction false} TraceIsLegal(code: Code, cfg: Config, sch: Schedule, states: seq<State>, acts: seq<Action>)
    requires Trace(code, cfg, sch, states, acts)
    ensures Legal(code, cfg, sch, states[0], acts) && Final(code, cfg, sch, states[0], acts) == states[|acts|]
    decreases |acts|
  {
    hide Apply, Enabled, Permits;
    if acts != [] {
      var rest, later := acts[1..], states[1..];
      assert forall i {:trigger rest[i]} :: 0 <= i < |rest| ==> rest[i] == acts[i + 1];
      assert states[1] == Apply(code, cfg, states[0], acts[0]);
      TraceIsLegal(code, cfg, sch, later, rest);
    }
  }

  lemma {:induction false} LegalIsTrace(code: Code, cfg: Config, sch: Schedule, s: State, acts: seq<Action>)
    returns (states: seq<State>)
    requires Legal(code, cfg, sch, s, acts)
    ensures Trace(code, cfg, sch, states, acts) && states[0] == s && states[|acts|] == Final(code, cfg, sch, s, acts)
    decreases |acts|
  {
    hide Apply, Enabled, Permits;
    states := [s];
    if acts != [] {
      var later := LegalIsTrace(code, cfg, sch, Apply(code, cfg, s, acts[0]), acts[1..]);
      states := [s] + later;
      assert forall i {:trigger acts[i]} :: 0 < i < |acts| ==> acts[i] == acts[1..][i - 1];
    }
  }

  lemma TraceInit(code: Code, cfg: Config, sch: Schedule, states: seq<State>, acts: seq<Action>)
    requires Trace(code, cfg, sch, states, acts) && acts != []
    ensures var n := |acts| - 1;
      && Trace(code, cfg, sch, states[..n + 1], acts[..n])
      && Enabled(code, states[n], acts[n]) && Permits(code, sch, states[n], acts[n])
      && states[n + 1] == Apply(code, cfg, states[n], acts[n])
  {
    hide Enabled, Apply, Permits;
    var n := |acts| - 1;
    assert acts[n] == acts[n];
    assert forall i {:trigger acts[..n][i]} :: 0 <= i < n ==> acts[..n][i] == acts[i];
  }

  /** Both ways of saying that a behaviour leads from one state to another. */
  lemma LeadsBy(code: Code, cfg: Config, sch: Schedule, s: State, t: State) returns (acts: seq<Action>)
    requires Leads(code, cfg, sch, s, t)
    ensures Legal(code, cfg, sch, s, acts) && Final(code, cfg, sch, s, acts) == t
  {
    hide Apply, Enabled, Permits;
    var states, path :| Trace(code, cfg, sch, states, path) && states[0] == s && states[|path|] == t;
    TraceIsLegal(code, cfg, sch, states, path);
    acts := path;
  }

  lemma LegalLeads(code: Code, cfg: Config, sch: Schedule, s: State, acts: seq<Action>)
    requires Legal(code, cfg, sch, s, acts)
    ensures Leads(code, cfg, sch, s, Final(code, cfg, sch, s, acts))
  {
    hide Apply, Enabled, Permits, Trace, Legal, Final;
    var states := LegalIsTrace(code, cfg, sch, s, acts);
  }

  lemma ReachableBy(code: Code, cfg: Config, sch: Schedule, s: State) returns (now: Time, acts: seq<Action>)
    requires Reachable(code, cfg, sch, s)
    ensures Legal(code, cfg, sch, Init(now), acts) && Final(code, cfg, sch, Init(now), acts) == s
  {
    hide Leads, Legal, Final;
    var start :| Leads(code, cfg, sch, Init(start), s);
    now := start;
    acts := LeadsBy(code, cfg, sch, Init(now), s);
  }

  lemma LegalReaches(code: Code, cfg: Config, sch: Schedule, now: Time, acts: seq<Action>)
    requires Legal(code, cfg, sch, Init(now), acts)
    ensures Reachable(code, cfg, sch, Final(code, cfg, sch, Init(now), acts))
  {
    hide Leads, Legal, Final;
    LegalLeads(code, cfg, sch, Init(now), acts);
  }

  lemma LeadsNowhere(code: Code, cfg: Config, sch: Schedule, s: State)
    ensures Leads(code, cfg, sch, s, s)
  {
    hide Apply, Enabled, Permits, Leads;
    LegalLeads(code, cfg, sch, s, []);
  }

  lemma LeadsThen(code: Code, cfg: Config, sch: Schedule, s: State, t: State, a: Action)
    requires Leads(code, cfg, sch, s, t) && Enabled(code, t, a) && Permits(code, sch, t, a)
    ensures Leads(code, cfg, sch, s, Apply(code, cfg, t, a))
  {
    hide Apply, Enabled, Permits, Leads, Legal, Final;
    var acts := LeadsBy(code, cfg, sch, s, t);
    LegalAppend(code, cfg, sch, s, acts, a);
    LegalLeads(code, cfg, sch, s, acts + [a]);
  }

  /** What is proved of every interleaving is proved of any schedule's. */
  lemma {:induction false} AnyScheduleToo(code: Code, cfg: Config, sch: Schedule, s: State, acts: seq<Action>)
    requires Legal(code, cfg, sch, s, acts)
    ensures Legal(code, cfg, AnySchedule, s, acts)
    ensures Final(code, cfg, AnySchedule, s, acts) == Final(code, cfg, sch, s, acts)
    decreases |acts|
  {
    hide Apply, Enabled;
    if acts != [] {
      AnyScheduleToo(code, cfg, sch, Apply(code, cfg, s, acts[0]), acts[1..]);
    }
  }

  lemma ReachableAnyway(code: Code, cfg: Config, sch: Schedule, s: State)
    requires Reachable(code, cfg, sch, s)
    ensures Reachable(code, cfg, AnySchedule, s)
  {
    hide Leads, Legal, Final;
    var now, acts := ReachableBy(code, cfg, sch, s);
    AnyScheduleToo(code, cfg, sch, Init(now), acts);
    LegalReaches(code, cfg, AnySchedule, now, acts);
  }
}
