/**
 * What one call of a run does to the model of module Cluster, what the calls of everybody else leave
 * of that run alone, and what follows for the states between two calls.
 */
module Steps {
  import opened Wrappers
  import opened Ids
  import opened Serialization
  import opened Events
  import opened Transactions
  import opened Workflows
  import opened Machine
  import opened Cluster
  import opened Family
  import Progress
  import Transparency

  // ----- Recorded behaviours -----

  /** The state a recorded behaviour leads to. */
  ghost predicate Reached(code: Code, cfg: Config, sch: Schedule, start: Time, acts: seq<Action>, s: State) {
    Legal(code, cfg, sch, Init(start), acts) && Final(code, cfg, sch, Init(start), acts) == s && FamilyInv(code, s)
  }

  lemma ReachedFamily(code: Code, cfg: Config, sch: Schedule, start: Time, acts: seq<Action>, s: State)
    requires Reached(code, cfg, sch, start, acts, s)
    ensures FamilyInv(code, s)
  {
  }

  lemma ReachNext(code: Code, cfg: Config, sch: Schedule, start: Time, acts: seq<Action>, s: State, a: Action)
    requires Reached(code, cfg, sch, start, acts, s) && Enabled(code, s, a) && Permits(code, sch, s, a)
    ensures Reached(code, cfg, sch, start, acts + [a], Apply(code, cfg, s, a))
    ensures Grows(s.store, Apply(code, cfg, s, a).store)
  {
    hide Apply, Enabled, Permits, FamilyInv, Grows;
    ApplyKeepsFamily(code, cfg, s, a);
    LegalAppend(code, cfg, sch, Init(start), acts, a);
  }

  lemma {:induction false} SplitLegal(code: Code, cfg: Config, sch: Schedule, s: State,
                                      before: seq<Action>, more: seq<Action>)
    requires Legal(code, cfg, sch, s, before) && Legal(code, cfg, sch, s, before + more)
    ensures Legal(code, cfg, sch, Final(code, cfg, sch, s, before), more)
    ensures Final(code, cfg, sch, Final(code, cfg, sch, s, before), more) == Final(code, cfg, sch, s, before + more)
    decreases |before|
  {
    hide Apply, Enabled, Permits;
    if before == [] {
      assert before + more == more;
    } else {
      assert (before + more)[1..] == before[1..] + more;
      SplitLegal(code, cfg, sch, Apply(code, cfg, s, before[0]), before[1..], more);
    }
  }

  lemma {:induction false} TimeIsMonotone(code: Code, cfg: Config, sch: Schedule, s: State, acts: seq<Action>)
    requires Legal(code, cfg, sch, s, acts)
    ensures s.now <= Final(code, cfg, sch, s, acts).now
    decreases |acts|
  {
    hide Enabled, Permits, TxOf, Commit, RunsAfter, SeenAfter, AuditAfter;
    if acts != [] {
      TimeIsMonotone(code, cfg, sch, Apply(code, cfg, s, acts[0]), acts[1..]);
    }
  }

  /** What was recorded later is a legal way on from what was recorded before. */
  lemma RecordLeadsOn(code: Code, cfg: Config, sch: Schedule, start: Time,
                      before: seq<Action>, s: State, after: seq<Action>, t: State)
    requires Reached(code, cfg, sch, start, before, s) && Reached(code, cfg, sch, start, after, t) && before <= after
    ensures Leads(code, cfg, sch, s, t) && Grows(s.store, t.store) && s.now <= t.now
  {
    hide Apply, Enabled, Permits, FamilyInv, Grows, Legal, Final, Leads;
    assert before + after[|before|..] == after;
    SplitLegal(code, cfg, sch, Init(start), before, after[|before|..]);
    LegalLeads(code, cfg, sch, s, after[|before|..]);
    FamilyHolds(code, cfg, sch, s, after[|before|..]);
    TimeIsMonotone(code, cfg, sch, s, after[|before|..]);
  }

  lemma RecordIsReachable(code: Code, cfg: Config, sch: Schedule, start: Time, acts: seq<Action>, s: State)
    requires Reached(code, cfg, sch, start, acts, s)
    ensures Reachable(code, cfg, sch, s)
  {
    hide Apply, Legal, Final, FamilyInv, Reachable;
    LegalReaches(code, cfg, sch, start, acts);
  }

  // ----- A run's own steps -----

  /** Whether activity bodies owe results that their annotations bring back. */
  predicate Promises(sch: Schedule) {
    !sch.AnySchedule? && sch.restorable
  }

  /** The run has made its move: the store, its own log, and itself afterwards. */
  ghost predicate Stepped(cfg: Config, s: State, rid: RunId, m: Move, t: State)
    requires rid in s.runs && Valid(s.store, m.tx)
  {
    var id := s.runs[rid].wf;
    && t.store == Commit(s.store, s.now, cfg.lockDuration, m.tx) && t.now == s.now
    && t.runs == (if m.next.Some? then s.runs[rid := m.next.value] else s.runs - {rid})
    && id in t.store.rows && t.Log(id) == Transparency.OwnLog(s.store, s.Log(id), m.tx)
    && (m.next.None? ==> Progress.Released(t.store.rows[id], m.tx))
  }

  /** The next step of a run is always one it can take; what it does to the state. */
  lemma OwnStep(code: Code, cfg: Config, sch: Schedule, s: State, rid: RunId, choice: Choice)
    requires FamilyInv(code, s) && rid in s.runs
    requires s.runs[rid].pc.BodyRunning? <==> !choice.Proceed?
    requires choice.Succeeds? ==> Permits(code, sch, s, Progress(rid, choice))
    ensures CanStep(code, s.runs[rid], choice)
    ensures var a, m := Progress(rid, choice), MoveOf(code, s, s.runs[rid], choice);
      && Enabled(code, s, a) && Permits(code, sch, s, a) && TxOf(code, s, a) == m.tx && Valid(s.store, m.tx)
      && Stepped(cfg, s, rid, m, Apply(code, cfg, s, a))
  {
    hide Commit, First, StoreInv, AuditAfter, SeenAfter, Step, Progress.Released, FlowOf, Transparency.OwnLog, Grows;
    assert RunOk(code, s.store, s.runs[rid]);
    ApplicableStep(code, s, rid, choice);
    ApplyKeepsFamily(code, cfg, s, Progress(rid, choice));
    hide FamilyInv;
    Transparency.OwnLogIsCommitted(code, s, Progress(rid, choice), cfg.lockDuration);
    CommitGrows(s.store, s.now, cfg.lockDuration, MoveOf(code, s, s.runs[rid], choice).tx);
    RowStays(s.store, Apply(code, cfg, s, Progress(rid, choice)).store, s.runs[rid].wf);
    hide RunOk, Valid;
    if MoveOf(code, s, s.runs[rid], choice).next.None? {
      Progress.EndingMoveReleases(code, cfg, s, Progress(rid, choice));
    }
  }

  lemma RowStays(s: Store, t: Store, id: Id)
    requires Grows(s, t) && id in s.rows
    ensures id in t.rows
  {
  }

  lemma ApplicableStep(code: Code, s: State, rid: RunId, choice: Choice)
    requires FamilyInv(code, s) && rid in s.runs
    requires s.runs[rid].pc.BodyRunning? <==> !choice.Proceed?
    ensures CanStep(code, s.runs[rid], choice) && Enabled(code, s, Progress(rid, choice))
    ensures Valid(s.store, MoveOf(code, s, s.runs[rid], choice).tx)
  {
    hide Commit, First, StoreInv, Step, FlowOf;
    assert RunOk(code, s.store, s.runs[rid]);
    hide FamilyInv;
    MovesAreProper(code, s, s.runs[rid], choice);
  }

  /** A result its annotation brings back is one every schedule permits. */
  lemma RestoredIsPermitted(code: Code, sch: Schedule, s: State, rid: RunId, v: PyValue)
    requires rid in s.runs && CommandOf(code, s.runs[rid]).Activity?
    requires Promises(sch) ==>
      RestoredResult(code.classes, ToJsonSafe(v), CommandOf(code, s.runs[rid]).annotation) == Result(v)
    ensures Permits(code, sch, s, Progress(rid, Succeeds(v)))
  {
    hide FlowOf, RestoredResult;
  }

  // ----- Everybody else's -----

  /** Whether an action belongs to somebody else than this run; its heartbeat is somebody else. */
  predicate Foreign(a: Action, rid: RunId) {
    (a.Progress? || a.Crash?) ==> a.rid != rid
  }

  predicate Allowed(a: Action, rid: RunId) {
    Foreign(a, rid) || a.Progress?
  }

  /** What has been done since is this run's own steps, if any, and other parties' actions. */
  ghost predicate Extends(before: seq<Action>, after: seq<Action>, rid: RunId) {
    before <= after && forall k :: |before| <= k < |after| ==> Allowed(after[k], rid)
  }

  /** What has been done since is other parties' actions only. */
  ghost predicate OthersOnly(before: seq<Action>, after: seq<Action>, rid: RunId) {
    before <= after && forall k :: |before| <= k < |after| ==> Foreign(after[k], rid)
  }

  lemma ForeignStep(code: Code, cfg: Config, s: State, a: Action)
    requires FamilyInv(code, s) && Enabled(code, s, a)
    ensures Valid(s.store, TxOf(code, s, a))
    ensures var t := Apply(code, cfg, s, a);
      && t.store == Commit(s.store, s.now, cfg.lockDuration, TxOf(code, s, a))
      && t.now == (if a.Tick? then s.now + a.elapsed else s.now)
  {
    ActionIsProper(code, s, a);
    hide Commit, First, StoreInv, AuditAfter, SeenAfter, Step, Valid;
  }

  lemma ForeignRun(code: Code, cfg: Config, s: State, a: Action, rid: RunId)
    requires Enabled(code, s, a) && Foreign(a, rid) && rid in s.runs
    ensures var t := Apply(code, cfg, s, a); rid in t.runs && t.runs[rid] == s.runs[rid].(due := t.runs[rid].due)
  {
    hide Commit, First, AuditAfter, SeenAfter, Step, Valid;
  }

  lemma ClaimEnabled(code: Code, sch: Schedule, s: State, a: Action)
    requires FamilyInv(code, s) && a.Claim? && a.rid !in s.runs && !sch.Exclusive?
    requires a.id in s.store.rows && s.store.rows[a.id].Claimable(s.now)
    ensures Enabled(code, s, a) && Permits(code, sch, s, a) && TxOf(code, s, a) == ClaimWorkflow(a.id, a.worker)
  {
    hide First;
  }

  lemma BeatStep(code: Code, cfg: Config, sch: Schedule, s: State, rid: RunId)
    requires FamilyInv(code, s) && rid in s.runs && s.runs[rid].wf in s.store.rows
    ensures var a, t, id := Beat(rid), s.store, s.runs[rid].wf;
      && Enabled(code, s, a) && Permits(code, sch, s, a)
      && TxOf(code, s, a) == ExtendLock(id) && Valid(s.store, ExtendLock(id))
      && var u := Apply(code, cfg, s, a);
        && u.store == Commit(s.store, s.now, cfg.lockDuration, ExtendLock(id)) && u.now == s.now
        && rid in u.runs && u.runs[rid].wf == id && u.runs[rid].due == s.now + cfg.heartbeatInterval + cfg.maxDelay
        && id in u.store.rows && u.store.rows[id].lockedUntil == Some(s.now + cfg.lockDuration)
  {
    hide First;
  }

  lemma NoTxIsNothing(s: Store, now: Time, lockDuration: Time)
    ensures Commit(s, now, lockDuration, NoTx) == s
  {
  }

  // ----- The log a run works on -----

  lemma RowOfRun(code: Code, s: State, rid: RunId)
    requires FamilyInv(code, s) && rid in s.runs
    ensures var r := s.runs[rid]; r.wf in s.store.rows && s.Log(r.wf) != [] && r.hist <= s.Log(r.wf)
  {
    assert RunOk(code, s.store, s.runs[rid]) && StartedOk(s.store, s.runs[rid].wf);
  }

  lemma GrowsTwice(a: Store, b: Store, c: Store)
    requires Grows(a, b) && Grows(b, c)
    ensures Grows(a, c)
  {
  }

  lemma LogGrows(a: Store, b: Store, id: Id)
    requires Grows(a, b)
    ensures a.Log(id) <= b.Log(id)
  {
  }

  /** After a refused mark the event is in the log, so the second look cannot fail. */
  lemma MarkRefused(code: Code, s: State, rid: RunId)
    requires FamilyInv(code, s) && rid in s.runs && s.runs[rid].pc.Reloading?
    ensures var r := s.runs[rid];
      r.wf in s.store.rows && First(s.Log(r.wf), Settles(r.At(), CommandOf(code, r))).Some?
  {
    assert RunOk(code, s.store, s.runs[rid]);
  }

  /** The id of a spawn site that is taken is the one the log names for the step. */
  lemma SpawnIsRecorded(s: Store, p: Id, i: nat)
    requires StoreInv(s) && ChildId(p, i) in s.rows
    ensures IsChildOf(s, ChildId(p, i), p)
    ensures First(s.Log(p), AtStep(i, ChildStartedKind)).Some?
    ensures First(s.Log(p), AtStep(i, ChildStartedKind)).value.childId == ChildId(p, i)
  {
    hide First, Count, ChildId;
    TakenMeansSpawnedHere(s, p, i);
    ScanIsExact(s.Log(p), AtStep(i, ChildStartedKind));
    assert SpawnsOk(s, p);
  }

  /** A spawn event in a snapshot names the id of its site, which is a child of this workflow. */
  lemma SpawnFound(code: Code, s: State, rid: RunId, i: nat)
    requires FamilyInv(code, s) && rid in s.runs && First(s.runs[rid].hist, AtStep(i, ChildStartedKind)).Some?
    ensures var r := s.runs[rid]; var e := First(r.hist, AtStep(i, ChildStartedKind)).value;
      e.childId == ChildId(r.wf, i) && ChildId(r.wf, i) in s.store.rows
  {
    hide First, Count, ChildId;
    RowOfRun(code, s, rid);
    var r := s.runs[rid];
    ScanIsExact(r.hist, AtStep(i, ChildStartedKind));
    assert SpawnsOk(s.store, r.wf);
  }

  /** The result of step `n` is the recorded one, or the one whose encoding the log holds. */
  ghost predicate Told(cs: Classes, log: Log, n: nat, c: Command, o: Obs) {
    || Tells(cs, log, n, c, o)
    || (c.Activity? && o.Result? && exists k: nat :: Completed(n, ToJsonSafe(o.value), k) in log)
  }

  /** A result whose encoding was the last thing to be written. */
  lemma CompletedIsTold(cs: Classes, log: Log, c: Command, v: PyValue)
    requires c.Activity? && log != [] && log[|log| - 1].Completed?
    requires log[|log| - 1].result == ToJsonSafe(v)
    ensures Told(cs, log, log[|log| - 1].step, c, Result(v))
  {
    hide ToJsonSafe, Lookup;
    assert log[|log| - 1] in log;
  }

  lemma ToldLater(cs: Classes, log: Log, more: Log, n: nat, c: Command, o: Obs)
    requires Told(cs, log, n, c, o) && log <= more
    ensures Told(cs, more, n, c, o)
  {
    hide First, ToJsonSafe, Tells, Lookup;
    LookupIsWhatTheLogTells(cs, log, n, c, o);
    LookupIsWhatTheLogTells(cs, more, n, c, o);
    if Tells(cs, log, n, c, o) {
      LookupIsStable(cs, log, more, n, c);
    }
  }

  lemma RecordedIsTold(code: Code, s: State, rid: RunId, n: nat, c: Command)
    requires FamilyInv(code, s) && rid in s.runs && Lookup(code.classes, s.runs[rid].hist, n, c).Some?
    ensures var r := s.runs[rid]; var told := Lookup(code.classes, r.hist, n, c);
      && Lookup(code.classes, s.Log(r.wf), n, c) == told
      && Tells(code.classes, r.hist, n, c, told.value) && Tells(code.classes, s.Log(r.wf), n, c, told.value)
      && Told(code.classes, s.Log(r.wf), n, c, told.value)
  {
    hide First, Lookup, Tells;
    RowOfRun(code, s, rid);
    var told := Lookup(code.classes, s.runs[rid].hist, n, c).value;
    LookupIsStable(code.classes, s.runs[rid].hist, s.Log(s.runs[rid].wf), n, c);
    LookupIsWhatTheLogTells(code.classes, s.runs[rid].hist, n, c, told);
    LookupIsWhatTheLogTells(code.classes, s.Log(s.runs[rid].wf), n, c, told);
  }

  lemma RecordedIsThere(code: Code, s: State, rid: RunId, q: Query)
    requires FamilyInv(code, s) && rid in s.runs && First(s.runs[rid].hist, q).Some?
    ensures First(s.runs[rid].hist, q).value in s.Log(s.runs[rid].wf)
  {
    hide First;
    RowOfRun(code, s, rid);
    ScanIsExact(s.runs[rid].hist, q);
  }

  lemma RecordedMarker(code: Code, s: State, rid: RunId, c: Command)
    requires FamilyInv(code, s) && rid in s.runs && Waits(c) && First(s.runs[rid].hist, Marker(c)).Some?
    ensures MarkerEvent(c) in s.Log(s.runs[rid].wf)
  {
    hide First;
    RowOfRun(code, s, rid);
    ScanIsExact(s.runs[rid].hist, Marker(c));
  }

  /** A terminal transaction tells and wakes the parent. */
  lemma FinishDelivers(code: Code, cfg: Config, s: State, rid: RunId,
                       outcome: ChildOutcome, parentInfo: Option<ParentInfo>)
    requires FamilyInv(code, s) && rid in s.runs && CanStep(code, s.runs[rid], Proceed)
    requires MoveOf(code, s, s.runs[rid], Proceed) == Move(Finish(s.runs[rid].wf, outcome, parentInfo), None)
    ensures Valid(s.store, Finish(s.runs[rid].wf, outcome, parentInfo))
    ensures parentInfo.Some? ==>
      var t := Commit(s.store, s.now, cfg.lockDuration, Finish(s.runs[rid].wf, outcome, parentInfo));
      var p := parentInfo.value.workflowId;
      && p in t.rows && t.rows[p].status == RUNNING && t.rows[p].runAt == s.now
      && t.Log(p) != [] && t.Log(p)[|t.Log(p)| - 1] == ChildSignal(parentInfo.value.childId, outcome)
  {
    hide Step, First, StoreInv;
    assert RunOk(code, s.store, s.runs[rid]);
    MovesAreProper(code, s, s.runs[rid], Proceed);
  }

  lemma ChildIsThere(s: Store, now: Time, lockDuration: Time, p: Id, i: nat, name: string, input: Json)
    requires Valid(s, CreateChild(p, i, ChildId(p, i), name, input))
    ensures ChildId(p, i) in Commit(s, now, lockDuration, CreateChild(p, i, ChildId(p, i), name, input)).rows
  {
  }

  lemma FamilyStore(code: Code, s: State)
    requires FamilyInv(code, s)
    ensures StoreInv(s.store)
  {
  }

  /** What a run takes for its workflow's code stays what the log says it is. */
  lemma SameFlowSince(code: Code, s: State, rid: RunId, t: State)
    requires FamilyInv(code, s) && rid in s.runs && Grows(s.store, t.store)
    requires s.runs[rid].hist == s.Log(s.runs[rid].wf)
    ensures var r := s.runs[rid]; var started := First(r.hist, IsStarted);
      && r.wf in t.store.rows && FlowAt(code, t, r.wf) == FlowOfRun(code, r)
      && started.Some? && ParentOf(started) == ParentInfoOf(t.store.rows[r.wf], r.wf)
  {
    hide First;
    assert RunOk(code, s.store, s.runs[rid]) && StartedOk(s.store, s.runs[rid].wf);
    hide StoreInv;
    Transparency.SameFlow(code, s, t, s.runs[rid].wf);
  }

  /** Every result handed over so far is one the log told. */
  ghost predicate AllTold(cs: Classes, w: Workflow, log: Log, obs: seq<Obs>) {
    forall i :: 0 <= i < |obs| ==> Told(cs, log, i, w(obs[..i]), obs[i])
  }

  lemma NothingTold(cs: Classes, w: Workflow, log: Log)
    ensures AllTold(cs, w, log, [])
  {
  }

  lemma AllToldNext(cs: Classes, w: Workflow, log: Log, more: Log, obs: seq<Obs>, o: Obs)
    requires AllTold(cs, w, log, obs) && log <= more && Told(cs, more, |obs|, w(obs), o)
    ensures AllTold(cs, w, more, obs + [o])
  {
    hide Told;
    AllToldLater(cs, w, log, more, obs);
    var longer := obs + [o];
    forall i | 0 <= i < |longer|
      ensures Told(cs, more, i, w(longer[..i]), longer[i])
    {
      assert longer[..i] == obs[..i] && obs[..|obs|] == obs;
    }
  }

  lemma AllToldLater(cs: Classes, w: Workflow, log: Log, more: Log, obs: seq<Obs>)
    requires AllTold(cs, w, log, obs) && log <= more
    ensures AllTold(cs, w, more, obs)
  {
    hide Told;
    forall i | 0 <= i < |obs|
      ensures Told(cs, more, i, w(obs[..i]), obs[i])
    {
      ToldLater(cs, log, more, i, w(obs[..i]), obs[i]);
    }
  }
}
