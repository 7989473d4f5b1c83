/**
 * What clients ask for is what the logs hold: a started workflow executes the code and input it was
 * started with, and the signals in its log are the signals sent to it, in order and with their payloads.
 */
module Requests {
  import opened Wrappers
  import opened Ids
  import opened Serialization
  import opened Events
  import opened Transactions
  import opened Workflows
  import opened Machine
  import opened Cluster
  import opened Family
  import opened Transparency

  // ----- Signals -----

  /** The signals of a log, waiting markers and child completions aside. */
  function SignalsIn(log: Log): Log {
    if log == [] then []
    else SignalsIn(log[..|log| - 1]) + if log[|log| - 1].Signal? then [log[|log| - 1]] else []
  }

  /** The signals that were sent to a workflow. */
  function SignalsTo(acts: seq<Action>, id: Id): Log {
    if acts == [] then []
    else
      var a := acts[|acts| - 1];
      SignalsTo(acts[..|acts| - 1], id) + if a.SendSignal? && a.id == id then [Signal(a.signalType, a.payload)] else []
  }

  lemma SignalsAppend(log: Log, e: Event)
    ensures SignalsIn(log + [e]) == SignalsIn(log) + if e.Signal? then [e] else []
  {
    assert (log + [e])[..|log + [e]| - 1] == log;
  }

  lemma NoSignals(e: Event)
    requires !e.Signal?
    ensures SignalsIn([]) == [] && SignalsIn([e]) == []
  {
    SignalsAppend([], e);
    assert [] + [e] == [e];
  }

  /** Only the signal endpoint writes signals. */
  lemma RunsWriteNoSignals(code: Code, s: State, r: Run, choice: Choice)
    requires CanStep(code, r, choice)
    ensures var tx := MoveOf(code, s, r, choice).tx; !tx.WriteSignal? && (tx.WriteEvent? ==> !tx.event.Signal?)
  {
    hide First, Count, ChildId, SerializeArguments, ToJsonSafe, Lookup, Settles;
  }

  lemma CommitSignals(s: Store, now: Time, lockDuration: Time, tx: Tx, id: Id)
    requires Valid(s, tx) && s.rows.Keys == s.logs.Keys && (tx.WriteEvent? ==> !tx.event.Signal?)
    ensures SignalsIn(Commit(s, now, lockDuration, tx).Log(id)) ==
      SignalsIn(s.Log(id)) + if tx.WriteSignal? && tx.id == id then [Signal(tx.signalType, tx.payload)] else []
  {
    hide SignalsIn, First;
    var log := s.Log(id);
    match tx
    case CreateWorkflow(_, _, input) => NoSignals(Started(input, None));
    case CreateChild(parent, step, child, name, input) =>
      var started := Started(input, Some(ParentInfo(parent, child)));
      NoSignals(started);
      SignalsAppend(log, ChildStarted(step, child, name, input));
      SignalsAppend([started], ChildStarted(step, child, name, input));
    case WriteEvent(_, e) => SignalsAppend(log, e);
    case WriteSignal(_, t, payload) => SignalsAppend(log, Signal(t, payload));
    case Finish(_, outcome, parentInfo) => FinishSignals(s, now, lockDuration, tx, id);
    case _ =>
  }

  lemma FinishSignals(s: Store, now: Time, lockDuration: Time, tx: Tx, id: Id)
    requires Valid(s, tx) && s.rows.Keys == s.logs.Keys && tx.Finish?
    ensures SignalsIn(Commit(s, now, lockDuration, tx).Log(id)) == SignalsIn(s.Log(id))
  {
    hide SignalsIn;
    var log, ended := s.Log(id), TerminalEvent(tx.outcome);
    SignalsAppend(log, ended);
    if tx.parentInfo.Some? {
      var told := ChildSignal(tx.parentInfo.value.childId, tx.outcome);
      SignalsAppend(log, told);
      SignalsAppend(log + [ended], told);
    }
  }

  lemma StepSignals(code: Code, cfg: Config, s: State, a: Action, id: Id)
    requires FamilyInv(code, s) && Enabled(code, s, a)
    ensures SignalsIn(Apply(code, cfg, s, a).Log(id)) ==
      SignalsIn(s.Log(id)) + if a.SendSignal? && a.id == id then [Signal(a.signalType, a.payload)] else []
  {
    hide Step, Commit, First, StoreInv, AuditAfter, SeenAfter, SignalsIn;
    RowsHaveLogs(code, s);
    ActionIsProper(code, s, a);
    hide FamilyInv, Proper;
    if a.Progress? {
      RunsWriteNoSignals(code, s, s.runs[a.rid], a.choice);
    }
    CommitSignals(s.store, s.now, cfg.lockDuration, TxOf(code, s, a), id);
  }

  /** Signals are conserved: none is lost, repeated, reordered or changed, and none is made up. */
  lemma {:induction false} SignalsAreDelivered(
    code: Code, cfg: Config, sch: Schedule, now: Time, states: seq<State>, acts: seq<Action>, id: Id)
    requires Trace(code, cfg, sch, states, acts) && states[0] == Init(now)
    ensures FamilyInv(code, states[|acts|])
    ensures SignalsIn(states[|acts|].Log(id)) == SignalsTo(acts, id)
    decreases |acts|
  {
    hide Apply, Enabled, Permits, FamilyInv, SignalsIn;
    assert |states| == |acts| + 1;
    hide Trace;
    if acts == [] {
      InitFamily(code, now);
      NoSignals(SignalWaiting(""));
      assert states[0].Log(id) == [];
    } else {
      var n := |acts| - 1;
      TraceInit(code, cfg, sch, states, acts);
      SignalsAreDelivered(code, cfg, sch, now, states[..n + 1], acts[..n], id);
      StepSignals(code, cfg, states[n], acts[n], id);
      ApplyKeepsFamily(code, cfg, states[n], acts[n]);
    }
  }

  // ----- Starts -----

  /** The code a workflow of this name and input executes. */
  function CodeFor(code: Code, name: string, input: Json): Workflow {
    if name in code.registry then code.registry[name](input) else (_: seq<Obs>) => Raise(Unregistered(name))
  }

  /** The workflow is there as it was asked for. */
  ghost predicate RunsAsAsked(code: Code, s: State, id: Id, name: string, input: Json) {
    && s.store.Has(id) && s.store.rows[id].name == name && s.store.rows[id].parent == None
    && s.Log(id) != [] && s.Log(id)[0] == Started(input, None)
    && FlowAt(code, s, id) == CodeFor(code, name, input)
  }

  lemma StartStarts(code: Code, cfg: Config, s: State, id: Id, name: string, input: Json)
    requires Enabled(code, s, Start(id, name, input))
    ensures RunsAsAsked(code, Apply(code, cfg, s, Start(id, name, input)), id, name, input)
  {
    SingletonScans(Started(input, None));
  }

  lemma StartedStays(code: Code, cfg: Config, s: State, a: Action, id: Id, name: string, input: Json)
    requires FamilyInv(code, s) && Enabled(code, s, a) && RunsAsAsked(code, s, id, name, input)
    ensures RunsAsAsked(code, Apply(code, cfg, s, a), id, name, input)
  {
    hide Apply, Enabled, StoreInv, First, FlowOf, CodeFor;
    ApplyKeepsFamily(code, cfg, s, a);
    SameFlow(code, s, Apply(code, cfg, s, a), id);
  }

  /** A workflow that was started has the name and input it was started with, and executes that code. */
  lemma {:induction false} StartsAreHonoured(
    code: Code, cfg: Config, sch: Schedule, now: Time, states: seq<State>, acts: seq<Action>, i: nat)
    requires Trace(code, cfg, sch, states, acts) && states[0] == Init(now) && i < |acts| && acts[i].Start?
    ensures FamilyInv(code, states[|acts|])
    ensures RunsAsAsked(code, states[|acts|], acts[i].id, acts[i].name, acts[i].input)
    decreases |acts|
  {
    hide Apply, Enabled, Permits, FamilyInv, RunsAsAsked;
    assert |states| == |acts| + 1;
    hide Trace;
    var n := |acts| - 1;
    TraceInit(code, cfg, sch, states, acts);
    SignalsAreDelivered(code, cfg, sch, now, states[..n + 1], acts[..n], acts[i].id);
    ApplyKeepsFamily(code, cfg, states[n], acts[n]);
    if i == n {
      StartStarts(code, cfg, states[n], acts[n].id, acts[n].name, acts[n].input);
    } else {
      StartsAreHonoured(code, cfg, sch, now, states[..n + 1], acts[..n], i);
      assert acts[..n][i] == acts[i];
      StartedStays(code, cfg, states[n], acts[n], acts[i].id, acts[i].name, acts[i].input);
    }
  }

  // ----- What one request does to a row -----

  /** A signal makes its workflow RUNNING and due now, whatever it was, and leaves a lock in place. */
  lemma SignalWakes(code: Code, cfg: Config, s: State, id: Id, signalType: string, payload: Json)
    requires Enabled(code, s, SendSignal(id, signalType, payload))
    ensures var t := Apply(code, cfg, s, SendSignal(id, signalType, payload));
      && id in t.store.rows && t.store.rows[id].status == RUNNING && t.store.rows[id].runAt == s.now == t.now
      && t.store.rows[id].lockedBy == s.store.rows[id].lockedBy
      && t.store.rows[id].lockedUntil == s.store.rows[id].lockedUntil
      && t.Log(id) == s.Log(id) + [Signal(signalType, payload)]
  {
  }

  /** A claim puts the worker's name on the row, for the lock duration. */
  lemma ClaimTakesTheLock(code: Code, cfg: Config, s: State, rid: RunId, worker: string, id: Id)
    requires Enabled(code, s, Claim(rid, worker, id))
    ensures var t := Apply(code, cfg, s, Claim(rid, worker, id));
      && id in t.store.rows && t.store.rows[id].lockedBy == Some(worker)
      && t.store.rows[id].lockedUntil == Some(s.now + cfg.lockDuration)
      && t.store.rows[id].status == RUNNING && t.Log(id) == s.Log(id)
      && rid in t.runs && t.runs[rid].wf == id && t.runs[rid].worker == worker
  {
  }
}
