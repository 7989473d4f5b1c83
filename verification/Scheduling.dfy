/** The claim loop of a worker (`worker/scheduler.py`): how many runs it has, and what it claims next. */
module Scheduling {
  import opened Wrappers
  import opened Ids
  import opened Transactions
  import opened Cluster
  import opened Runner

  class Scheduler {
    const system: System
    const worker: string
    const concurrency: nat
    var activeTasks: set<RunId>
    var hadWork: bool

    ghost predicate Valid()
      reads this, system, system.db
    {
      && system.Valid() && !system.sch.Exclusive?
      && |activeTasks| <= concurrency
    }

    constructor (system: System, worker: string, concurrency: nat)
      requires system.Valid() && !system.sch.Exclusive?
      ensures Valid() && this.system == system && this.worker == worker && this.concurrency == concurrency
      ensures activeTasks == {} && hadWork
    {
      this.system, this.worker, this.concurrency := system, worker, concurrency;
      activeTasks, hadWork := {}, true;
    }

    /** A number no run in progress has. */
    method FreshRun() returns (rid: RunId)
      ensures rid !in system.state.runs
    {
      rid := 0;
      var rest := system.state.runs.Keys;
      while rest != {}
        invariant rest <= system.state.runs.Keys
        invariant forall k :: k in system.state.runs && k !in rest ==> k < rid
        decreases rest
      {
        var k :| k in rest;
        rest := rest - {k};
        if k >= rid {
          rid := k + 1;
        }
      }
    }

    /**
     * One pass of `run_scheduler_loop`, after the given tasks have finished. At capacity the worker
     * claims nothing and counts as busy; below it, it claims the oldest eligible workflow for a new
     * task, and goes idle only if no row was eligible.
     */
    method Round(finished: set<RunId>) returns (claimed: Option<Id>)
      requires Valid()
      modifies this, system`state, system`acts, system.db
      ensures Valid() && old(system.acts) <= system.acts
      ensures old(activeTasks) - finished <= activeTasks
      ensures |old(activeTasks) - finished| >= concurrency ==>
        claimed.None? && system.state == old(system.state) && hadWork == old(hadWork)
      ensures |old(activeTasks) - finished| < concurrency ==> hadWork == claimed.Some?
      ensures |old(activeTasks) - finished| < concurrency && claimed.None? ==>
        forall id :: id in system.state.store.rows ==> !system.state.store.rows[id].Claimable(system.state.now)
      ensures claimed.Some? ==>
        exists rid :: rid !in old(system.state.runs) && rid in activeTasks
          && Enabled(system.code, old(system.state), Claim(rid, worker, claimed.value))
          && system.state == Apply(system.code, system.cfg, old(system.state), Claim(rid, worker, claimed.value))
    {
      hide Apply, Enabled, Row.Claimable;
      activeTasks := activeTasks - finished;
      if |activeTasks| >= concurrency {
        return None;
      }
      var rid := FreshRun();
      claimed := system.ClaimNext(rid, worker);
      if claimed.None? {
        hadWork := false;
        return;
      }
      hadWork := true;
      activeTasks := activeTasks + {rid};
    }
  }
}
