/**
 * One run of a workflow, cut at its database calls. Between two calls a run only computes, so a
 * crash or another party's transaction can fall exactly between two steps of this machine.
 */
module Machine {
  import opened Wrappers
  import opened Ids
  import opened Serialization
  import opened Events
  import opened Transactions
  import opened Workflows

  datatype Pc =
    | Claimed                                // row claimed, history not loaded yet
    | Deciding                               // about to carry out the next command
    | BodyReady                              // SCHEDULED is durable
    | BodyRunning                            // the activity body is executing
    | Retrying(error: string, attempt: nat)  // FAILED written, reschedule or failure not yet
    | Parking(until: Time)                   // SLEEP written, run_at not yet moved
    | Marking                                // waiting marker durable, row not yet marked
    | Reloading                              // the mark was refused

  /** The in-memory state of a run: claimed record, history snapshot, results so far. */
  datatype Run = Run(
    wf: Id,
    worker: string,
    name: string,
    hist: Log,
    obs: seq<Obs>,
    pc: Pc,
    due: Time)
  {
    /** The step the run is at: `step_counter` before the pending primitive takes its index. */
    function At(): nat { |obs| }

    function Observe(o: Obs): Run {
      this.(obs := obs + [o], pc := Deciding)
    }
  }

  function FlowOfRun(code: Code, r: Run): Workflow {
    FlowOf(code, r.name, First(r.hist, IsStarted))
  }

  function CommandOf(code: Code, r: Run): Command {
    FlowOfRun(code, r)(r.obs)
  }

  predicate Waits(c: Command) {
    c.WaitSignal? || c.WaitChild?
  }

  /** How an executing activity body ends; every other step has no choice. */
  datatype Choice = Proceed | Succeeds(value: PyValue) | Fails(error: string)

  /** The database call of a step, and the run afterwards unless it ended. */
  datatype Move = Move(tx: Tx, next: Option<Run>)

  /** The program point and the pending command belong together. */
  predicate PcFits(pc: Pc, c: Command) {
    match pc
    case Claimed => true
    case Deciding => true
    case BodyReady => c.Activity?
    case BodyRunning => c.Activity?
    case Retrying(_, _) => c.Activity?
    case Parking(_) => c.Sleep?
    case Marking => Waits(c)
    case Reloading => Waits(c)
  }

  function Marker(c: Command): Query
    requires Waits(c)
  {
    if c.WaitSignal? then SignalMarker(c.signalType) else ChildMarker(c.childId)
  }

  function MarkerEvent(c: Command): Event
    requires Waits(c)
  {
    if c.WaitSignal? then SignalWaiting(c.signalType) else ChildWaiting(c.childId)
  }

  /** `_run_workflow`'s two terminal exits. */
  function End(r: Run, outcome: ChildOutcome): Move {
    Move(Finish(r.wf, outcome, ParentOf(First(r.hist, IsStarted))), None)
  }

  /** Carry out the next command as far as its first database call. */
  function Decide(code: Code, now: Time, r: Run): Move {
    var n, c := r.At(), CommandOf(code, r);
    match c
    case Return(result) => End(r, ChildCompleted(result))
    case Raise(reason) => End(r, ChildFailed(reason))
    case Activity(name, call, _, _) =>
      var settled := Lookup(code.classes, r.hist, n, c);
      if settled.Some? then Move(NoTx, Some(r.Observe(settled.value)))
      else
        (match First(r.hist, AtStep(n, ScheduledKind))
         case Some(e) =>
           if e.name != name || !SameJson(e.call, SerializeArguments(call)) then End(r, ChildFailed(Diverged(n)))
           else Move(NoTx, Some(r.(pc := BodyReady)))
         case None =>
           Move(WriteEvent(r.wf, Scheduled(n, name, SerializeArguments(call))), Some(r.(pc := BodyReady))))
    case Sleep(duration) =>
      (match First(r.hist, AtStep(n, SleepingKind))
       case Some(e) =>
         if now >= e.wakeupAt then Move(NoTx, Some(r.Observe(Slept)))
         else Move(Reschedule(r.wf, e.wakeupAt), None)
       case None =>
         Move(WriteEvent(r.wf, Sleeping(n, now + duration, now)), Some(r.(pc := Parking(now + duration)))))
    case Spawn(name, input) =>
      var settled := Lookup(code.classes, r.hist, n, c);
      if settled.Some? then Move(NoTx, Some(r.Observe(settled.value)))
      else
        var child := ChildId(r.wf, n);
        Move(CreateChild(r.wf, n, child, name, input), Some(r.Observe(Spawned(child))))
    case _ =>
      var settled := Lookup(code.classes, r.hist, n, c);
      if settled.Some? then Move(NoTx, Some(r.Observe(settled.value)))
      else if First(r.hist, Marker(c)).Some? then Move(NoTx, Some(r.(pc := Marking)))
      else Move(WriteEvent(r.wf, MarkerEvent(c)), Some(r.(pc := Marking)))
  }

  /** One step of a run, given the committed log of its workflow and the time. */
  function Step(code: Code, log: Log, now: Time, r: Run, choice: Choice): Move
    requires PcFits(r.pc, CommandOf(code, r))
    requires r.pc.BodyRunning? <==> !choice.Proceed?
  {
    var n, c := r.At(), CommandOf(code, r);
    match r.pc
    case Claimed => Move(NoTx, Some(r.(hist := log, obs := [], pc := Deciding)))
    case Deciding => Decide(code, now, r)
    case BodyReady => Move(NoTx, Some(r.(pc := BodyRunning)))
    case BodyRunning =>
      var failures := Count(r.hist, AtStep(n, FailedKind));
      if choice.Succeeds? then
        Move(WriteEvent(r.wf, Completed(n, ToJsonSafe(choice.value), failures + 1)),
             Some(r.Observe(Result(choice.value))))
      else
        Move(WriteEvent(r.wf, Failed(n, choice.error, failures)), Some(r.(pc := Retrying(choice.error, failures))))
    case Retrying(error, attempt) =>
      if attempt + 1 <= c.policy.maxRetries then Move(Reschedule(r.wf, now + c.policy.backoff), None)
      else End(r, ChildFailed(Exhausted(c.name, error)))
    case Parking(until) => Move(Reschedule(r.wf, until), None)
    case Marking =>
      var awaited := Settles(n, c);
      Move(MarkWaiting(r.wf, awaited), if First(log, awaited).Some? then Some(r.(pc := Reloading)) else None)
    case Reloading =>
      var settled := Lookup(code.classes, log, n, c);
      Move(NoTx, if settled.Some? then Some(r.Observe(settled.value)) else None)
  }
}
