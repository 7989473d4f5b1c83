/**
 * Crash-transparent replay, one workflow at a time. The log of a workflow determines one trace of
 * results; every run, whatever crashed before it, is given a prefix of that trace.
 */
module Replay {
  import opened Wrappers
  import opened Ids
  import opened Serialization
  import opened Events
  import opened Transactions
  import opened Workflows
  import opened Machine

  // ----- The invariant of one workflow -----

  /** An event written at a step is one the command of that step writes. */
  predicate Fits(c: Command, e: Event) {
    match e
    case Scheduled(_, name, call) => c.Activity? && name == c.name && call == SerializeArguments(c.call)
    case Completed(_, _, _) => c.Activity?
    case Failed(_, _, _) => c.Activity?
    case Sleeping(_, wakeupAt, timestamp) => c.Sleep? && wakeupAt == timestamp + c.duration
    case ChildStarted(_, _, name, input) => c.Spawn? && name == c.name && input == c.input
    case _ => true
  }

  ghost predicate StepsFit(w: Workflow, log: Log, seen: seq<Obs>) {
    forall p {:trigger log[p]} :: 0 <= p < |log| && StepIndex(log[p]) >= 0 ==>
      StepIndex(log[p]) <= |seen| && Fits(w(seen[..StepIndex(log[p])]), log[p])
  }

  ghost predicate AtMostOnce(log: Log) {
    forall i: nat ::
      && Count(log, AtStep(i, ScheduledKind)) <= 1
      && Count(log, AtStep(i, CompletedKind)) <= 1
      && Count(log, AtStep(i, SleepingKind)) <= 1
  }

  /** Sleeps that were passed had run out. */
  ghost predicate SleepsOver(w: Workflow, log: Log, seen: seq<Obs>, now: Time) {
    forall i {:trigger seen[..i]} :: 0 <= i < |seen| && w(seen[..i]).Sleep? ==>
      First(log, AtStep(i, SleepingKind)).Some? && First(log, AtStep(i, SleepingKind)).value.wakeupAt <= now
  }

  ghost predicate WorkflowInv(cs: Classes, w: Workflow, log: Log, seen: seq<Obs>, now: Time) {
    && Explains(cs, w, log, seen)
    && StepsFit(w, log, seen)
    && AtMostOnce(log)
    && SleepsOver(w, log, seen, now)
  }

  // ----- The invariant of its run in progress -----

  /** The events a run may have written at its current step since it loaded its history. */
  predicate WrittenAt(pc: Pc, e: Event) {
    match pc
    case BodyReady => e.Scheduled?
    case BodyRunning => e.Scheduled?
    case Retrying(_, _) => e.Scheduled? || e.Failed?
    case Parking(_) => e.Sleeping?
    case _ => false
  }

  /** The snapshot misses nothing about the steps still to come, but for what this run wrote itself. */
  ghost predicate SnapshotCurrent(hist: Log, log: Log, n: nat, pc: Pc) {
    && hist <= log
    && forall p {:trigger log[p]} :: |hist| <= p < |log| ==>
      StepIndex(log[p]) < n || (StepIndex(log[p]) == n && WrittenAt(pc, log[p]))
  }

  ghost predicate RunInv(w: Workflow, log: Log, seen: seq<Obs>, r: Run) {
    !r.pc.Claimed? ==>
      && r.obs <= seen
      && SnapshotCurrent(r.hist, log, r.At(), r.pc)
      && PcFits(r.pc, w(r.obs))
      && (w(r.obs).Activity? && !r.pc.Deciding? ==>
            && First(r.hist, AtStep(r.At(), CompletedKind)).None?
            && First(log, AtStep(r.At(), ScheduledKind)).Some?)
      && (r.pc.Parking? ==>
            && First(r.hist, AtStep(r.At(), SleepingKind)).None?
            && First(log, AtStep(r.At(), SleepingKind)).Some?
            && First(log, AtStep(r.At(), SleepingKind)).value.wakeupAt == r.pc.until)
      && (r.pc.Marking? || r.pc.Reloading? ==> First(r.hist, Settles(r.At(), w(r.obs))).None?)
  }

  // ----- Events that belong to no step -----

  /** The log grew by signals, deliveries, markers or terminal events only. */
  ghost predicate GrewAside(log: Log, more: Log) {
    log <= more && forall p {:trigger more[p]} :: |log| <= p < |more| ==> StepIndex(more[p]) < 0
  }

  lemma AsideScans(log: Log, more: Log, i: nat, kind: Kind)
    requires GrewAside(log, more)
    ensures First(more, AtStep(i, kind)) == First(log, AtStep(i, kind))
    ensures Count(more, AtStep(i, kind)) == Count(log, AtStep(i, kind))
  {
    ScanIgnores(log, more, AtStep(i, kind));
  }

  lemma AsideKeepsWorkflow(cs: Classes, w: Workflow, log: Log, more: Log, seen: seq<Obs>, now: Time, later: Time)
    requires WorkflowInv(cs, w, log, seen, now) && GrewAside(log, more) && now <= later
    ensures WorkflowInv(cs, w, more, seen, later)
  {
    ExplainsIsMonotone(cs, w, log, more, seen);
    hide First, Count, Explains, Fits;
    forall i: nat
      ensures Count(more, AtStep(i, ScheduledKind)) <= 1
      ensures Count(more, AtStep(i, CompletedKind)) <= 1
      ensures Count(more, AtStep(i, SleepingKind)) <= 1
    {
      AsideScans(log, more, i, ScheduledKind);
      AsideScans(log, more, i, CompletedKind);
      AsideScans(log, more, i, SleepingKind);
    }
    forall i | 0 <= i < |seen| && w(seen[..i]).Sleep?
      ensures First(more, AtStep(i, SleepingKind)).Some?
      ensures First(more, AtStep(i, SleepingKind)).value.wakeupAt <= later
    {
      AsideScans(log, more, i, SleepingKind);
    }
  }

  lemma AsideKeepsRun(w: Workflow, log: Log, more: Log, seen: seq<Obs>, longer: seq<Obs>, r: Run)
    requires RunInv(w, log, seen, r) && GrewAside(log, more) && seen <= longer
    ensures RunInv(w, more, longer, r)
  {
    hide First, Count, Matches;
    if !r.pc.Claimed? {
      AsideScans(log, more, r.At(), ScheduledKind);
      AsideScans(log, more, r.At(), SleepingKind);
    }
  }

  // ----- What a run knows -----

  /** For the step a run is at, its snapshot and the log agree on every kind of event it did not just write. */
  lemma SnapshotAgrees(hist: Log, log: Log, n: nat, pc: Pc, kind: Kind)
    requires SnapshotCurrent(hist, log, n, pc)
    requires pc.Deciding? || pc.Marking? || pc.Reloading? || kind.CompletedKind? || (kind.FailedKind? && !pc.Retrying?)
    ensures First(log, AtStep(n, kind)) == First(hist, AtStep(n, kind))
    ensures Count(log, AtStep(n, kind)) == Count(hist, AtStep(n, kind))
  {
    forall p | |hist| <= p < |log|
      ensures !Matches(log[p], AtStep(n, kind))
    {
      assert StepIndex(log[p]) < n || (StepIndex(log[p]) == n && WrittenAt(pc, log[p]));
    }
    ScanIgnores(hist, log, AtStep(n, kind));
  }

  /** A command the snapshot does not settle is the first one past the trace seen so far. */
  lemma UnsettledIsFrontier(cs: Classes, w: Workflow, log: Log, seen: seq<Obs>, now: Time, r: Run)
    requires WorkflowInv(cs, w, log, seen, now) && r.obs <= seen
    requires Lookup(cs, log, r.At(), w(r.obs)).None?
    ensures r.obs == seen
  {
    assert seen[..|r.obs|] == r.obs;
  }

  /** What the run is handed next is the next result of the trace. */
  lemma SettledExtendsTrace(cs: Classes, w: Workflow, log: Log, seen: seq<Obs>, r: Run, o: Obs)
    requires Explains(cs, w, log, seen) && r.obs <= seen
    requires Lookup(cs, log, r.At(), w(r.obs)) == Some(o)
    ensures |r.obs| < |seen| ==> r.obs + [o] <= seen
    ensures |r.obs| == |seen| ==> Explains(cs, w, log, r.obs + [o])
  {
    var n := |r.obs|;
    if n < |seen| {
      assert seen[..n] == r.obs;
      assert seen[n] == o;
      assert seen[..n + 1] == r.obs + [o];
    } else {
      assert r.obs == seen;
      ExplainsExtend(cs, w, log, seen, o);
    }
  }

  /** The trace a run leaves behind when it is given `o`. */
  function SeenWith(seen: seq<Obs>, obs: seq<Obs>, o: Obs): seq<Obs> {
    if |seen| < |obs| + 1 then obs + [o] else seen
  }

  /** A settled step is passed: the trace grows by at most this result, and the run stays on it. */
  lemma PassSettled(cs: Classes, w: Workflow, log: Log, seen: seq<Obs>, now: Time, r: Run, o: Obs)
    requires WorkflowInv(cs, w, log, seen, now) && RunInv(w, log, seen, r)
    requires r.pc.Deciding? || r.pc.Reloading?
    requires Lookup(cs, log, r.At(), w(r.obs)) == Some(o)
    requires w(r.obs).Sleep? ==>
      First(log, AtStep(r.At(), SleepingKind)).Some? && First(log, AtStep(r.At(), SleepingKind)).value.wakeupAt <= now
    ensures WorkflowInv(cs, w, log, SeenWith(seen, r.obs, o), now)
    ensures RunInv(w, log, SeenWith(seen, r.obs, o), r.Observe(o))
    ensures seen <= SeenWith(seen, r.obs, o)
  {
    SettledExtendsTrace(cs, w, log, seen, r, o);
    TraceGrows(cs, w, log, seen, now, r.obs, o);
    PassedRun(w, log, seen, r, o);
  }

  lemma PassedRun(w: Workflow, log: Log, seen: seq<Obs>, r: Run, o: Obs)
    requires r.obs <= seen && r.hist <= log
    requires forall p {:trigger log[p]} :: |r.hist| <= p < |log| ==> StepIndex(log[p]) <= r.At()
    requires |r.obs| < |seen| ==> r.obs + [o] <= seen
    ensures RunInv(w, log, SeenWith(seen, r.obs, o), r.Observe(o))
  {
    hide First, Count;
  }

  lemma TraceGrows(cs: Classes, w: Workflow, log: Log, seen: seq<Obs>, now: Time, obs: seq<Obs>, o: Obs)
    requires WorkflowInv(cs, w, log, seen, now) && obs <= seen
    requires |obs| < |seen| ==> obs + [o] <= seen
    requires |obs| == |seen| ==> Explains(cs, w, log, obs + [o])
    requires w(obs).Sleep? ==>
      First(log, AtStep(|obs|, SleepingKind)).Some? && First(log, AtStep(|obs|, SleepingKind)).value.wakeupAt <= now
    ensures WorkflowInv(cs, w, log, SeenWith(seen, obs, o), now)
    ensures seen <= SeenWith(seen, obs, o)
  {
    hide First, Count, Explains, Fits;
    if |obs| == |seen| {
      assert obs == seen;
      var longer := seen + [o];
      forall i | 0 <= i <= |seen|
        ensures longer[..i] == seen[..i]
      {
      }
      assert seen[..|seen|] == seen;
      assert StepsFit(w, log, longer);
      assert SleepsOver(w, log, longer, now);
    }
  }

  // ----- Events written at the current step -----

  /** How often a step may carry each kind of event. */
  predicate OnlyOnce(e: Event) {
    e.Scheduled? || e.Completed? || e.Sleeping?
  }

  function KindOf(e: Event): Kind
    requires StepIndex(e) >= 0
  {
    match e
    case Scheduled(_, _, _) => ScheduledKind
    case Completed(_, _, _) => CompletedKind
    case Failed(_, _, _) => FailedKind
    case Sleeping(_, _, _) => SleepingKind
    case ChildStarted(_, _, _, _) => ChildStartedKind
  }

  lemma AppendAtStep(cs: Classes, w: Workflow, log: Log, seen: seq<Obs>, now: Time, e: Event)
    requires WorkflowInv(cs, w, log, seen, now)
    requires 0 <= StepIndex(e) <= |seen| && Fits(w(seen[..StepIndex(e)]), e)
    requires OnlyOnce(e) ==> Count(log, AtStep(StepIndex(e), KindOf(e))) == 0
    ensures WorkflowInv(cs, w, log + [e], seen, now)
  {
    var more := log + [e];
    ExplainsIsMonotone(cs, w, log, more, seen);
    AppendScans(log, e);
    hide First, Count, Explains, Fits;
    forall p | 0 <= p < |more| && StepIndex(more[p]) >= 0
      ensures StepIndex(more[p]) <= |seen| && Fits(w(seen[..StepIndex(more[p])]), more[p])
    {
      if p < |log| {
        assert more[p] == log[p];
      }
    }
    forall i: nat
      ensures Count(more, AtStep(i, ScheduledKind)) <= 1
      ensures Count(more, AtStep(i, CompletedKind)) <= 1
      ensures Count(more, AtStep(i, SleepingKind)) <= 1
    {
      assert Count(log, AtStep(i, ScheduledKind)) <= 1;
    }
    forall i | 0 <= i < |seen| && w(seen[..i]).Sleep?
      ensures First(more, AtStep(i, SleepingKind)).Some?
      ensures First(more, AtStep(i, SleepingKind)).value.wakeupAt <= now
    {
    }
  }

  /** SCHEDULED is written once per step; the body may start. */
  lemma ScheduleStep(cs: Classes, w: Workflow, log: Log, seen: seq<Obs>, now: Time, r: Run, e: Event)
    requires WorkflowInv(cs, w, log, seen, now) && RunInv(w, log, seen, r) && r.pc.Deciding?
    requires w(r.obs).Activity? && Lookup(cs, r.hist, r.At(), w(r.obs)).None?
    requires e == Scheduled(r.At(), w(r.obs).name, SerializeArguments(w(r.obs).call))
    requires First(r.hist, AtStep(r.At(), ScheduledKind)).None?
    ensures WorkflowInv(cs, w, log + [e], seen, now)
    ensures RunInv(w, log + [e], seen, r.(pc := BodyReady))
  {
    SnapshotAgrees(r.hist, log, r.At(), r.pc, ScheduledKind);
    ScanIsExact(log, AtStep(r.At(), ScheduledKind));
    assert r.obs == seen[..r.At()];
    AppendAtStep(cs, w, log, seen, now, e);
    FirstOfAppend(log, e, AtStep(r.At(), ScheduledKind));
  }

  /** After a crash SCHEDULED is found again, and it is the one this code would write: no divergence. */
  lemma ScheduledMatches(cs: Classes, w: Workflow, log: Log, seen: seq<Obs>, now: Time, r: Run)
    requires WorkflowInv(cs, w, log, seen, now) && RunInv(w, log, seen, r) && r.pc.Deciding?
    requires w(r.obs).Activity? && First(r.hist, AtStep(r.At(), ScheduledKind)).Some?
    ensures var e := First(r.hist, AtStep(r.At(), ScheduledKind)).value;
      && e.name == w(r.obs).name && e.call == SerializeArguments(w(r.obs).call)
      && SameJson(e.call, SerializeArguments(w(r.obs).call))
  {
    var q := AtStep(r.At(), ScheduledKind);
    var e := First(r.hist, q).value;
    ScanIsExact(r.hist, q);
    var p :| 0 <= p < |r.hist| && r.hist[p] == e;
    assert log[p] == e && StepIndex(log[p]) == r.At();
    assert r.obs == seen[..r.At()];
    SameJsonReflexive(e.call);
  }

  lemma ResumeStep(cs: Classes, w: Workflow, log: Log, seen: seq<Obs>, r: Run)
    requires RunInv(w, log, seen, r) && r.pc.Deciding?
    requires w(r.obs).Activity? && Lookup(cs, r.hist, r.At(), w(r.obs)).None?
    requires First(r.hist, AtStep(r.At(), ScheduledKind)).Some?
    ensures RunInv(w, log, seen, r.(pc := BodyReady))
  {
    FirstIsStable(r.hist, log, AtStep(r.At(), ScheduledKind));
    hide First, Count;
  }

  /** COMPLETED is written once per step, and replays as what the run was given. */
  lemma CompleteStep(cs: Classes, w: Workflow, log: Log, seen: seq<Obs>, now: Time, r: Run, v: PyValue, attempts: nat)
    requires WorkflowInv(cs, w, log, seen, now) && RunInv(w, log, seen, r) && r.pc.BodyRunning?
    requires RestoredResult(cs, ToJsonSafe(v), w(r.obs).annotation) == Result(v)
    ensures var more := log + [Completed(r.At(), ToJsonSafe(v), attempts)];
      && WorkflowInv(cs, w, more, SeenWith(seen, r.obs, Result(v)), now)
      && RunInv(w, more, SeenWith(seen, r.obs, Result(v)), r.Observe(Result(v)))
      && seen <= SeenWith(seen, r.obs, Result(v))
  {
    var n, e := r.At(), Completed(r.At(), ToJsonSafe(v), attempts);
    hide ToJsonSafe, FromJsonSafe;
    var more := log + [e];
    SnapshotAgrees(r.hist, log, n, r.pc, CompletedKind);
    ScanIsExact(log, AtStep(n, CompletedKind));
    assert r.obs == seen[..n];
    AppendAtStep(cs, w, log, seen, now, e);
    FirstOfAppend(log, e, AtStep(n, CompletedKind));
    SettledExtendsTrace(cs, w, more, seen, r, Result(v));
    TraceGrows(cs, w, more, seen, now, r.obs, Result(v));
    PassedRun(w, more, seen, r, Result(v));
  }

  lemma FailStep(cs: Classes, w: Workflow, log: Log, seen: seq<Obs>, now: Time, r: Run, error: string, attempt: nat)
    requires WorkflowInv(cs, w, log, seen, now) && RunInv(w, log, seen, r) && r.pc.BodyRunning?
    ensures WorkflowInv(cs, w, log + [Failed(r.At(), error, attempt)], seen, now)
    ensures RunInv(w, log + [Failed(r.At(), error, attempt)], seen, r.(pc := Retrying(error, attempt)))
  {
    var e := Failed(r.At(), error, attempt);
    assert r.obs == seen[..r.At()];
    AppendAtStep(cs, w, log, seen, now, e);
    FirstOfAppend(log, e, AtStep(r.At(), ScheduledKind));
    hide First, Count;
  }

  /** SLEEP is written once per step, with the wake-up time counted from this first encounter. */
  lemma ParkStep(cs: Classes, w: Workflow, log: Log, seen: seq<Obs>, now: Time, r: Run)
    requires WorkflowInv(cs, w, log, seen, now) && RunInv(w, log, seen, r) && r.pc.Deciding?
    requires w(r.obs).Sleep? && First(r.hist, AtStep(r.At(), SleepingKind)).None?
    ensures var until := now + w(r.obs).duration;
      && WorkflowInv(cs, w, log + [Sleeping(r.At(), until, now)], seen, now)
      && RunInv(w, log + [Sleeping(r.At(), until, now)], seen, r.(pc := Parking(until)))
  {
    hide First, Count;
    var until := now + w(r.obs).duration;
    var e := Sleeping(r.At(), until, now);
    SnapshotAgrees(r.hist, log, r.At(), r.pc, SleepingKind);
    ScanIsExact(log, AtStep(r.At(), SleepingKind));
    assert r.obs == seen[..r.At()];
    AppendAtStep(cs, w, log, seen, now, e);
    AppendedIsFirst(log, e, AtStep(r.At(), SleepingKind));
    ParkedRun(w, log, seen, r, e);
  }

  lemma ParkedRun(w: Workflow, log: Log, seen: seq<Obs>, r: Run, e: Event)
    requires RunInv(w, log, seen, r) && r.pc.Deciding? && w(r.obs).Sleep?
    requires e.Sleeping? && e.step == r.At() && First(log + [e], AtStep(r.At(), SleepingKind)) == Some(e)
    requires First(r.hist, AtStep(r.At(), SleepingKind)).None?
    ensures RunInv(w, log + [e], seen, r.(pc := Parking(e.wakeupAt)))
  {
    hide First, Count, Matches;
  }

  /** CHILD_STARTED settles the spawn with the id the run goes on with. */
  lemma SpawnStep(cs: Classes, w: Workflow, log: Log, seen: seq<Obs>, now: Time, r: Run, child: Id)
    requires WorkflowInv(cs, w, log, seen, now) && RunInv(w, log, seen, r) && r.pc.Deciding?
    requires w(r.obs).Spawn? && Count(log, AtStep(r.At(), ChildStartedKind)) == 0
    ensures var more := log + [ChildStarted(r.At(), child, w(r.obs).name, w(r.obs).input)];
      && WorkflowInv(cs, w, more, SeenWith(seen, r.obs, Spawned(child)), now)
      && RunInv(w, more, SeenWith(seen, r.obs, Spawned(child)), r.Observe(Spawned(child)))
      && seen <= SeenWith(seen, r.obs, Spawned(child))
  {
    var n, e := r.At(), ChildStarted(r.At(), child, w(r.obs).name, w(r.obs).input);
    var more := log + [e];
    ScanIsExact(log, AtStep(n, ChildStartedKind));
    assert r.obs == seen[..n];
    AppendAtStep(cs, w, log, seen, now, e);
    FirstOfAppend(log, e, AtStep(n, ChildStartedKind));
    SettledExtendsTrace(cs, w, more, seen, r, Spawned(child));
    TraceGrows(cs, w, more, seen, now, r.obs, Spawned(child));
    PassedRun(w, more, seen, r, Spawned(child));
  }

  /** A waiting marker belongs to no step. */
  lemma MarkerStep(cs: Classes, w: Workflow, log: Log, seen: seq<Obs>, now: Time, r: Run, e: Event)
    requires WorkflowInv(cs, w, log, seen, now) && RunInv(w, log, seen, r) && r.pc.Deciding?
    requires Waits(w(r.obs)) && Lookup(cs, r.hist, r.At(), w(r.obs)).None? && StepIndex(e) < 0
    ensures WorkflowInv(cs, w, log + [e], seen, now)
    ensures RunInv(w, log + [e], seen, r.(pc := Marking))
  {
    AsideKeepsWorkflow(cs, w, log, log + [e], seen, now, now);
    AsideKeepsRun(w, log, log + [e], seen, seen, r);
    hide First, Count;
  }

  /** A workflow that has just been created. */
  lemma FreshWorkflow(cs: Classes, w: Workflow, e: Event, now: Time)
    requires e.Started?
    ensures WorkflowInv(cs, w, [e], [], now)
  {
    hide First, Count, Explains, Fits;
    EmptyScans();
    AppendScans([], e);
    assert [] + [e] == [e];
    assert Explains(cs, w, [e], []) by {
      NothingToExplain(cs, w, [e]);
    }
    assert forall p :: 0 <= p < |[e]| ==> StepIndex([e][p]) < 0;
  }

  lemma EmptyScans()
    ensures forall q: Query :: Count([], q) == 0
  {
  }

  lemma NothingToExplain(cs: Classes, w: Workflow, log: Log)
    ensures Explains(cs, w, log, [])
  {
  }
}
