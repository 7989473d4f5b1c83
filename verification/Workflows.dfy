/**
 * Workflow code as the engine sees it: a deterministic coroutine is a function from the results
 * it has been given so far to its next command.
 */
module Workflows {
  import opened Wrappers
  import opened Ids
  import opened Serialization
  import opened Events

  datatype Policy = Policy(maxRetries: nat, backoff: Time)

  datatype Arguments = Arguments(args: seq<PyValue>, kwargs: seq<Entry>)

  datatype Command =
    | Activity(name: string, call: Arguments, policy: Policy, annotation: Annotation)
    | Sleep(duration: Time)
    | WaitSignal(signalType: string)
    | Spawn(name: string, input: Json)
    | WaitChild(childId: Id)
    | Return(result: Json)
    | Raise(reason: Reason)

  /** What an awaited step hands back to the coroutine. */
  datatype Obs =
    | Result(value: PyValue)
    | RestoreFailed(error: Error)
    | Slept
    | Payload(payload: Json)
    | Spawned(childId: Id)
    | ChildDone(result: Json)
    | ChildError(childId: Id, reason: Reason)

  type Workflow = seq<Obs> -> Command

  /** The code deployed on the workers. */
  datatype Code = Code(classes: Classes, registry: map<string, Json -> Workflow>)

  /** The function a run drives: the registered one, or the failure the runner reports instead. */
  function FlowOf(code: Code, name: string, started: Option<Event>): Workflow {
    if started.None? || !started.value.Started? then (_: seq<Obs>) => Raise(StartedMissing)
    else if name !in code.registry then (_: seq<Obs>) => Raise(Unregistered(name))
    else code.registry[name](started.value.input)
  }

  function ParentOf(started: Option<Event>): Option<ParentInfo> {
    if started.Some? && started.value.Started? then started.value.parent else None
  }

  /** `_serialize_arguments`. */
  function SerializeArguments(call: Arguments): Json {
    JObj([JField("args", JArr(ItemsToJson(call.args))), JField("kwargs", JObj(EntriesToJson(call.kwargs)))])
  }

  // ----- What the log says about a step -----

  function RestoredResult(cs: Classes, stored: Json, ann: Annotation): Obs {
    match FromJsonSafe(cs, stored, ann)
    case Ok(v) => Result(v)
    case Err(e) => RestoreFailed(e)
  }

  /** `_child_signal_result`. */
  function ChildObs(childId: Id, outcome: ChildOutcome): Obs {
    match outcome
    case ChildCompleted(result) => ChildDone(result)
    case ChildFailed(reason) => ChildError(childId, reason)
  }

  /** The event that settles command `c` at step `i`. */
  function Settles(i: nat, c: Command): Query
    requires !c.Return? && !c.Raise?
  {
    match c
    case Activity(_, _, _, _) => AtStep(i, CompletedKind)
    case Sleep(_) => AtStep(i, SleepingKind)
    case WaitSignal(t) => Received(t)
    case Spawn(_, _) => AtStep(i, ChildStartedKind)
    case WaitChild(child) => ChildResult(child)
  }

  /** The result that event stands for. */
  function ObsOf(cs: Classes, c: Command, e: Event): Obs {
    match e
    case Completed(_, result, _) => RestoredResult(cs, result, if c.Activity? then c.annotation else AAny)
    case Signal(_, payload) => Payload(payload)
    case ChildStarted(_, child, _, _) => Spawned(child)
    case ChildSignal(child, outcome) => ChildObs(child, outcome)
    case _ => Slept
  }

  /** The result of step `i` as recorded in the log, if it is. */
  function Lookup(cs: Classes, log: Log, i: nat, c: Command): Option<Obs> {
    if c.Return? || c.Raise? then None
    else
      match First(log, Settles(i, c))
      case None => None
      case Some(e) => Some(ObsOf(cs, c, e))
  }

  /** Every result in `obs` is the recorded one. */
  ghost predicate Explains(cs: Classes, w: Workflow, log: Log, obs: seq<Obs>) {
    forall i :: 0 <= i < |obs| ==> Lookup(cs, log, i, w(obs[..i])) == Some(obs[i])
  }

  // ----- The same, event by event -----

  /** The event at `k` is the first of the log that fits. */
  ghost predicate IsFirst(log: Log, k: int, fits: Event -> bool) {
    0 <= k < |log| && fits(log[k]) && forall j :: 0 <= j < k ==> !fits(log[j])
  }

  /** The result a stored activity result stands for, if it is restored, or the error restoring it raises. */
  predicate StandsFor(cs: Classes, stored: Json, ann: Annotation, o: Obs) {
    var r := FromJsonSafe(cs, stored, ann);
    (r.Ok? ==> o == Result(r.value)) && (r.Err? ==> o == RestoreFailed(r.error))
  }

  /** A completed child hands over its result; a failed one raises. */
  predicate Reports(outcome: ChildOutcome, child: Id, o: Obs) {
    && (outcome.ChildCompleted? ==> o == ChildDone(outcome.result))
    && (outcome.ChildFailed? ==> o == ChildError(child, outcome.reason))
  }

  /** What step `n` of the log says about command `c`: which event settles it, and with what. */
  ghost predicate Tells(cs: Classes, log: Log, n: nat, c: Command, o: Obs) {
    match c
    case Activity(_, _, _, ann) =>
      exists k :: IsFirst(log, k, (e: Event) => e.Completed? && e.step == n) && StandsFor(cs, log[k].result, ann, o)
    case Sleep(_) =>
      o == Slept && exists k {:trigger log[k]} :: IsFirst(log, k, (e: Event) => e.Sleeping? && e.step == n)
    case WaitSignal(t) =>
      exists k :: IsFirst(log, k, (e: Event) => e.Signal? && e.signalType == t) && o == Payload(log[k].payload)
    case Spawn(_, _) =>
      exists k :: IsFirst(log, k, (e: Event) => e.ChildStarted? && e.step == n) && o == Spawned(log[k].childId)
    case WaitChild(child) =>
      exists k :: IsFirst(log, k, (e: Event) => e.ChildSignal? && e.childId == child) && Reports(log[k].outcome, child, o)
    case _ => false
  }

  lemma FirstIsFound(log: Log, q: Query, fits: Event -> bool)
    requires forall e :: fits(e) <==> Matches(e, q)
    ensures First(log, q).Some? <==> exists k :: IsFirst(log, k, fits)
    ensures forall k :: IsFirst(log, k, fits) ==> First(log, q) == Some(log[k])
  {
    if First(log, q).Some? {
      var k := PlaceOfFirst(log, q);
      assert IsFirst(log, k, fits);
    } else {
      ScanIsExact(log, q);
    }
    forall k | IsFirst(log, k, fits)
      ensures First(log, q) == Some(log[k])
    {
      ScanIsExact(log, q);
      var j := PlaceOfFirst(log, q);
      assert j == k;
    }
  }

  /** A lookup finds exactly what the log tells. */
  lemma LookupIsWhatTheLogTells(cs: Classes, log: Log, n: nat, c: Command, o: Obs)
    ensures Lookup(cs, log, n, c) == Some(o) <==> Tells(cs, log, n, c, o)
  {
    hide First, FromJsonSafe;
    match c
    case Activity(_, _, _, _) => FirstIsFound(log, Settles(n, c), (e: Event) => e.Completed? && e.step == n);
    case Sleep(_) => FirstIsFound(log, Settles(n, c), (e: Event) => e.Sleeping? && e.step == n);
    case WaitSignal(t) => FirstIsFound(log, Settles(n, c), (e: Event) => e.Signal? && e.signalType == t);
    case Spawn(_, _) => FirstIsFound(log, Settles(n, c), (e: Event) => e.ChildStarted? && e.step == n);
    case WaitChild(child) => FirstIsFound(log, Settles(n, c), (e: Event) => e.ChildSignal? && e.childId == child);
    case _ =>
  }

  lemma LookupIsStable(cs: Classes, log: Log, more: Log, i: nat, c: Command)
    requires log <= more && Lookup(cs, log, i, c).Some?
    ensures Lookup(cs, more, i, c) == Lookup(cs, log, i, c)
  {
    FirstIsStable(log, more, Settles(i, c));
  }

  lemma ExplainsIsMonotone(cs: Classes, w: Workflow, log: Log, more: Log, obs: seq<Obs>)
    requires log <= more && Explains(cs, w, log, obs)
    ensures Explains(cs, w, more, obs)
  {
    forall i | 0 <= i < |obs|
      ensures Lookup(cs, more, i, w(obs[..i])) == Some(obs[i])
    {
      LookupIsStable(cs, log, more, i, w(obs[..i]));
    }
  }

  lemma ExplainsPrefix(cs: Classes, w: Workflow, log: Log, obs: seq<Obs>, n: nat)
    requires Explains(cs, w, log, obs) && n <= |obs|
    ensures Explains(cs, w, log, obs[..n])
  {
    forall i | 0 <= i < n
      ensures Lookup(cs, log, i, w(obs[..n][..i])) == Some(obs[..n][i])
    {
      assert obs[..n][..i] == obs[..i];
    }
  }

  lemma ExplainsExtend(cs: Classes, w: Workflow, log: Log, obs: seq<Obs>, o: Obs)
    requires Explains(cs, w, log, obs) && Lookup(cs, log, |obs|, w(obs)) == Some(o)
    ensures Explains(cs, w, log, obs + [o])
  {
    var longer := obs + [o];
    forall i | 0 <= i < |longer|
      ensures Lookup(cs, log, i, w(longer[..i])) == Some(longer[i])
    {
      assert longer[..i] == obs[..i];
      assert obs[..|obs|] == obs;
    }
  }

  /** The log determines one trace: of two recorded result sequences, the shorter is a prefix. */
  lemma {:induction false} OneTrace(cs: Classes, w: Workflow, log: Log, a: seq<Obs>, b: seq<Obs>)
    requires Explains(cs, w, log, a) && Explains(cs, w, log, b) && |a| <= |b|
    ensures a <= b
    decreases |a|
  {
    if a != [] {
      var n := |a| - 1;
      ExplainsPrefix(cs, w, log, a, n);
      OneTrace(cs, w, log, a[..n], b);
      assert a[..n] == b[..n];
      assert Lookup(cs, log, n, w(a[..n])) == Some(a[n]);
      assert Lookup(cs, log, n, w(b[..n])) == Some(b[n]);
      assert a == a[..n] + [a[n]] && b[..n + 1] == b[..n] + [b[n]];
    }
  }

  // ----- The workflow without the engine -----

  /** A world that answers every command directly, as activities do outside a workflow context. */
  type Oracle = (nat, Command) -> Obs

  /** The first `n` results of one uninterrupted execution against an oracle. */
  function Uninterrupted(w: Workflow, world: Oracle, n: nat): (obs: seq<Obs>)
    ensures |obs| == n
  {
    if n == 0 then []
    else
      var before := Uninterrupted(w, world, n - 1);
      before + [world(n - 1, w(before))]
  }

  /** The oracle gives each step the outcome the log recorded for it. */
  ghost predicate Agrees(cs: Classes, log: Log, world: Oracle) {
    forall i: nat, c: Command :: Lookup(cs, log, i, c).Some? ==> Lookup(cs, log, i, c) == Some(world(i, c))
  }

  /** The world a log remembers; steps it does not know of end at once. */
  function WorldOf(cs: Classes, log: Log): (world: Oracle)
    ensures Agrees(cs, log, world)
  {
    (i: nat, c: Command) =>
      match Lookup(cs, log, i, c)
      case Some(o) => o
      case None => Slept
  }

  lemma {:induction false} ExplainedIsUninterrupted(
    cs: Classes, w: Workflow, log: Log, world: Oracle, obs: seq<Obs>)
    requires Explains(cs, w, log, obs) && Agrees(cs, log, world)
    ensures Uninterrupted(w, world, |obs|) == obs
    decreases |obs|
  {
    if obs != [] {
      var n := |obs| - 1;
      ExplainsPrefix(cs, w, log, obs, n);
      ExplainedIsUninterrupted(cs, w, log, world, obs[..n]);
      assert Lookup(cs, log, n, w(obs[..n])) == Some(obs[n]);
      assert obs == obs[..n] + [obs[n]];
    }
  }
}
