/**
 * Leases. A claim locks a row for L; the heartbeat of a live run pushes the lock forward within
 * H + D of the last one. Nothing checks who holds a lock when it is extended or when a run writes,
 * so that a workflow has one run at a time rests on this timing alone.
 */
module Lease {
  import opened Wrappers
  import opened Ids
  import opened Serialization
  import opened Events
  import opened Transactions
  import opened Workflows
  import opened Machine
  import opened Cluster

  predicate SafeTiming(cfg: Config) {
    0 <= cfg.heartbeatInterval + cfg.maxDelay <= cfg.lockDuration
  }

  ghost predicate Leased(cfg: Config, s: State, r: Run) {
    && r.wf in s.store.rows
    && var row := s.store.rows[r.wf];
      && row.lockedBy == Some(r.worker) && row.status == RUNNING
      && row.lockedUntil.Some? && row.lockedUntil.value >= r.due
      && s.now <= r.due <= s.now + cfg.heartbeatInterval + cfg.maxDelay
  }

  /** Every run in progress holds an unexpired lock, and no workflow has two runs. */
  ghost predicate LeaseInv(cfg: Config, s: State) {
    && (forall rid {:trigger s.runs[rid]} :: rid in s.runs ==> Leased(cfg, s, s.runs[rid]))
    && forall i, j {:trigger s.runs[i], s.runs[j]} :: i in s.runs && j in s.runs && s.runs[i].wf == s.runs[j].wf ==> i == j
  }

  /** A held lease keeps every other worker from claiming the row. */
  lemma LeasedIsNotClaimable(cfg: Config, s: State, id: Id)
    requires LeaseInv(cfg, s) && id in s.store.rows && s.store.rows[id].Claimable(s.now)
    ensures Idle(s, id)
  {
    forall rid | rid in s.runs
      ensures s.runs[rid].wf != id
    {
      assert Leased(cfg, s, s.runs[rid]);
    }
  }

  /** What a transaction does to the lock of a row it does not release: nothing, or push it out. */
  ghost predicate KeepsLease(cfg: Config, s: State, t: Store, id: Id) {
    && id in s.store.rows && id in t.rows
    && t.rows[id].lockedBy == s.store.rows[id].lockedBy
    && (s.store.rows[id].status == RUNNING ==> t.rows[id].status == RUNNING)
    && (s.store.rows[id].lockedUntil.Some? ==>
          t.rows[id].lockedUntil == s.store.rows[id].lockedUntil || t.rows[id].lockedUntil == Some(s.now + cfg.lockDuration))
  }

  lemma StepReleasesOnlyItsOwn(code: Code, cfg: Config, s: State, a: Action, id: Id)
    requires Enabled(code, s, a) && a.Progress? && id in s.store.rows
    requires s.runs[a.rid].wf == id ==> MoveOf(code, s, s.runs[a.rid], a.choice).next.Some?
    ensures KeepsLease(cfg, s, Commit(s.store, s.now, cfg.lockDuration, TxOf(code, s, a)), id)
  {
    hide First, Step, Commit, ChildId;
    MoveShape(code, s, s.runs[a.rid], a.choice);
    CommitKeepsLease(cfg, s, TxOf(code, s, a), id);
  }

  lemma CommitKeepsLease(cfg: Config, s: State, tx: Tx, id: Id)
    requires Valid(s.store, tx) && id in s.store.rows && !tx.CreateWorkflow? && !tx.ClaimWorkflow?
    requires tx.Reschedule? || tx.Finish? ==> tx.id != id
    requires tx.MarkWaiting? && tx.id == id ==> First(s.Log(id), tx.awaited).Some?
    ensures KeepsLease(cfg, s, Commit(s.store, s.now, cfg.lockDuration, tx), id)
  {
    hide First;
  }

  lemma LeasedAfter(code: Code, cfg: Config, restorable: bool, s: State, a: Action, rid: RunId)
    requires SafeTiming(cfg) && LeaseInv(cfg, s) && Enabled(code, s, a) && Permits(code, Timely(restorable), s, a)
    requires rid in Apply(code, cfg, s, a).runs
    ensures Leased(cfg, Apply(code, cfg, s, a), Apply(code, cfg, s, a).runs[rid])
  {
    hide Step, First, RestorableOutcome, AuditAfter, SeenAfter;
    if rid in s.runs {
      assert Leased(cfg, s, s.runs[rid]);
      if a.Progress? {
        if a.rid == rid {
          MoveShape(code, s, s.runs[rid], a.choice);
        }
        StepReleasesOnlyItsOwn(code, cfg, s, a, s.runs[rid].wf);
        hide Commit;
      }
    }
  }

  lemma ApplyKeepsLease(code: Code, cfg: Config, restorable: bool, s: State, a: Action)
    requires SafeTiming(cfg) && LeaseInv(cfg, s) && Enabled(code, s, a) && Permits(code, Timely(restorable), s, a)
    ensures LeaseInv(cfg, Apply(code, cfg, s, a))
    ensures Permits(code, Exclusive(restorable), s, a)
  {
    hide Step, First, RestorableOutcome, AuditAfter, SeenAfter, Commit, Leased, Row.Claimable, CommandOf, PcFits;
    hide Valid;
    var t := Apply(code, cfg, s, a);
    if a.Claim? {
      LeasedIsNotClaimable(cfg, s, a.id);
    }
    if a.Progress? && MoveOf(code, s, s.runs[a.rid], a.choice).next.Some? {
      MoveShape(code, s, s.runs[a.rid], a.choice);
    }
    forall rid | rid in t.runs
      ensures Leased(cfg, t, t.runs[rid])
    {
      LeasedAfter(code, cfg, restorable, s, a, rid);
    }
  }

  lemma {:induction false} LeaseHolds(code: Code, cfg: Config, restorable: bool, s: State, acts: seq<Action>)
    requires SafeTiming(cfg) && LeaseInv(cfg, s) && Legal(code, cfg, Timely(restorable), s, acts)
    ensures LeaseInv(cfg, Final(code, cfg, Timely(restorable), s, acts))
    ensures Legal(code, cfg, Exclusive(restorable), s, acts)
    ensures Final(code, cfg, Exclusive(restorable), s, acts) == Final(code, cfg, Timely(restorable), s, acts)
    decreases |acts|
  {
    hide Apply, Enabled, Permits, LeaseInv, SafeTiming;
    if acts != [] {
      ApplyKeepsLease(code, cfg, restorable, s, acts[0]);
      LeaseHolds(code, cfg, restorable, Apply(code, cfg, s, acts[0]), acts[1..]);
    }
  }

  /**
   * With H + D <= L no live run ever loses its lease and no workflow ever has two runs, though
   * heartbeats and writes check no owner: what timely behaviours reach, exclusive ones do.
   */
  lemma LeaseExclusion(code: Code, cfg: Config, restorable: bool, s: State)
    requires SafeTiming(cfg) && Reachable(code, cfg, Timely(restorable), s)
    ensures forall i, j :: i in s.runs && j in s.runs && s.runs[i].wf == s.runs[j].wf ==> i == j
    ensures forall rid :: rid in s.runs ==>
      var id := s.runs[rid].wf;
      id in s.store.rows && s.store.rows[id].lockedUntil.Some? && s.now <= s.store.rows[id].lockedUntil.value
    ensures Reachable(code, cfg, Exclusive(restorable), s)
  {
    hide Leads, Legal, Final, Apply, SafeTiming;
    var now, acts := ReachableBy(code, cfg, Timely(restorable), s);
    LeaseHolds(code, cfg, restorable, Init(now), acts);
    LegalReaches(code, cfg, Exclusive(restorable), now, acts);
    hide Reachable;
    forall rid | rid in s.runs
      ensures var id := s.runs[rid].wf;
        id in s.store.rows && s.store.rows[id].lockedUntil.Some? && s.now <= s.store.rows[id].lockedUntil.value
    {
      assert Leased(cfg, s, s.runs[rid]);
    }
  }

  ghost predicate TwoRunsOfOneWorkflow(s: State) {
    exists i, j :: i in s.runs && j in s.runs && i != j && s.runs[i].wf == s.runs[j].wf
  }

  lemma StartStep(code: Code, cfg: Config, now: Time, id: Id, name: string, input: Json)
    requires RootId(id)
    ensures var s, a := Init(now), Start(id, name, input);
      && Enabled(code, s, a)
      && var t := Apply(code, cfg, s, a);
        t.now == now && t.runs == map[] && t.store.Has(id) && t.store.rows[id] == NewRow(name, None, now)
  {
  }

  lemma ClaimStep(code: Code, cfg: Config, s: State, rid: RunId, worker: string, id: Id)
    requires rid !in s.runs && s.store.Has(id) && s.store.rows[id].Claimable(s.now)
    ensures var a := Claim(rid, worker, id);
      && Enabled(code, s, a)
      && var t := Apply(code, cfg, s, a);
        && t.now == s.now && t.runs.Keys == s.runs.Keys + {rid} && t.runs[rid].wf == id
        && t.runs[rid].due == s.now + cfg.heartbeatInterval + cfg.maxDelay
        && (forall r :: r in s.runs ==> t.runs[r] == s.runs[r])
        && t.store.Has(id)
        && t.store.rows[id] == s.store.rows[id].(lockedBy := Some(worker), lockedUntil := Some(s.now + cfg.lockDuration))
  {
  }

  lemma TickStep(code: Code, cfg: Config, s: State, elapsed: nat)
    ensures Enabled(code, s, Tick(elapsed))
    ensures var t := Apply(code, cfg, s, Tick(elapsed));
      t.now == s.now + elapsed && t.runs == s.runs && t.store == s.store
  {
  }

  /** The bound is tight: a heartbeat that may come later than L lets a second worker in. */
  lemma SlowHeartbeatsAdmitTwoRuns(code: Code, cfg: Config, now: Time, id: Id, name: string, input: Json)
    requires 0 <= cfg.lockDuration < cfg.heartbeatInterval + cfg.maxDelay && RootId(id)
    ensures exists s :: Leads(code, cfg, Timely(false), Init(now), s) && TwoRunsOfOneWorkflow(s)
  {
    hide Apply, Enabled, RootId, Leads;
    var s0 := Init(now);
    var start, first := Start(id, name, input), Claim(0, "w0", id);
    var wait, second := Tick(cfg.lockDuration + 1), Claim(1, "w1", id);
    StartStep(code, cfg, now, id, name, input);
    var s1 := Apply(code, cfg, s0, start);
    ClaimStep(code, cfg, s1, 0, "w0", id);
    var s2 := Apply(code, cfg, s1, first);
    TickStep(code, cfg, s2, cfg.lockDuration + 1);
    var s3 := Apply(code, cfg, s2, wait);
    ClaimStep(code, cfg, s3, 1, "w1", id);
    var s4 := Apply(code, cfg, s3, second);
    assert s4.runs[0].wf == s4.runs[1].wf == id;
    var none: seq<Action> := [];
    LegalAppend(code, cfg, Timely(false), s0, none, start);
    LegalAppend(code, cfg, Timely(false), s0, none + [start], first);
    LegalAppend(code, cfg, Timely(false), s0, none + [start] + [first], wait);
    LegalAppend(code, cfg, Timely(false), s0, none + [start] + [first] + [wait], second);
    LegalLeads(code, cfg, Timely(false), s0, none + [start] + [first] + [wait] + [second]);
  }

  /** Together: the timing excludes overlapping runs from every reachable state exactly if H + D <= L. */
  lemma LeaseBoundIsExact(code: Code, cfg: Config)
    requires 0 <= cfg.lockDuration && 0 <= cfg.heartbeatInterval + cfg.maxDelay
    ensures cfg.heartbeatInterval + cfg.maxDelay <= cfg.lockDuration <==>
      forall s :: Reachable(code, cfg, Timely(false), s) ==> !TwoRunsOfOneWorkflow(s)
  {
    hide Leads;
    if SafeTiming(cfg) {
      forall s | Reachable(code, cfg, Timely(false), s)
        ensures !TwoRunsOfOneWorkflow(s)
      {
        LeaseExclusion(code, cfg, false, s);
      }
    } else {
      SlowHeartbeatsAdmitTwoRuns(code, cfg, 0, "root", "flow", JNull);
      var s :| Leads(code, cfg, Timely(false), Init(0), s) && TwoRunsOfOneWorkflow(s);
      assert Reachable(code, cfg, Timely(false), s);
    }
  }
}
