/**
 * What waits return, in every interleaving and with no assumption on leases: each wait for a signal or
 * a child hands over the first matching event of the log, in every run that ever passes it.
 */
module Joins {
  import opened Wrappers
  import opened Ids
  import opened Serialization
  import opened Events
  import opened Transactions
  import opened Workflows
  import opened Machine
  import opened Cluster
  import opened Family

  /** The waits among the results of a run are answered by the first event each. */
  ghost predicate WaitsAnswered(cs: Classes, w: Workflow, log: Log, obs: seq<Obs>) {
    forall i {:trigger obs[..i]} :: 0 <= i < |obs| && Waits(w(obs[..i])) ==> Lookup(cs, log, i, w(obs[..i])) == Some(obs[i])
  }

  ghost predicate RunAnswered(code: Code, s: State, r: Run) {
    WaitsAnswered(code.classes, FlowOfRun(code, r), s.Log(r.wf), r.obs)
  }

  ghost predicate JoinInv(code: Code, s: State) {
    && FamilyInv(code, s)
    && forall rid {:trigger s.runs[rid]} :: rid in s.runs ==> RunAnswered(code, s, s.runs[rid])
  }

  lemma AnsweredLater(cs: Classes, w: Workflow, log: Log, more: Log, obs: seq<Obs>)
    requires WaitsAnswered(cs, w, log, obs) && log <= more
    ensures WaitsAnswered(cs, w, more, obs)
  {
    hide Lookup;
    forall i | 0 <= i < |obs| && Waits(w(obs[..i]))
      ensures Lookup(cs, more, i, w(obs[..i])) == Some(obs[i])
    {
      LookupIsStable(cs, log, more, i, w(obs[..i]));
    }
  }

  lemma AnsweredNext(cs: Classes, w: Workflow, log: Log, obs: seq<Obs>, o: Obs)
    requires WaitsAnswered(cs, w, log, obs)
    requires Waits(w(obs)) ==> Lookup(cs, log, |obs|, w(obs)) == Some(o)
    ensures WaitsAnswered(cs, w, log, obs + [o])
  {
    hide Lookup;
    var longer := obs + [o];
    forall i | 0 <= i < |longer| && Waits(w(longer[..i]))
      ensures Lookup(cs, log, i, w(longer[..i])) == Some(longer[i])
    {
      assert longer[..i] == obs[..i];
      assert obs[..|obs|] == obs;
    }
  }

  /** A run is given what its snapshot, or after a refused mark the log, holds for the wait it is at. */
  lemma ObservesFirst(code: Code, s: State, r: Run, choice: Choice)
    requires CanStep(code, r, choice) && MoveOf(code, s, r, choice).next.Some?
    ensures var r', c := MoveOf(code, s, r, choice).next.value, CommandOf(code, r);
      && r'.wf == r.wf && r'.name == r.name
      && (r.pc.Claimed? ==> r'.obs == [])
      && (!r.pc.Claimed? ==> r'.hist == r.hist && (r'.obs == r.obs || exists o :: r'.obs == r.obs + [o]))
      && (!r.pc.Claimed? && r'.obs != r.obs && Waits(c) ==>
            var o := r'.obs[|r.obs|];
            Lookup(code.classes, r.hist, r.At(), c) == Some(o) || Lookup(code.classes, s.Log(r.wf), r.At(), c) == Some(o))
  {
    hide First, Count, ChildId, SerializeArguments, ToJsonSafe, Lookup;
    var r' := MoveOf(code, s, r, choice).next.value;
    if |r'.obs| == |r.obs| + 1 {
      assert r'.obs == r.obs + [r'.obs[|r.obs|]];
    }
  }

  lemma MoverAnswered(code: Code, s: State, r: Run, choice: Choice, more: Log)
    requires CanStep(code, r, choice) && MoveOf(code, s, r, choice).next.Some?
    requires RunAnswered(code, s, r) && s.Log(r.wf) <= more && (!r.pc.Claimed? ==> r.hist <= s.Log(r.wf))
    ensures var r' := MoveOf(code, s, r, choice).next.value;
      WaitsAnswered(code.classes, FlowOfRun(code, r'), more, r'.obs)
  {
    ObservesFirst(code, s, r, choice);
    hide Step, Lookup, FlowOf, First;
    var r', c := MoveOf(code, s, r, choice).next.value, CommandOf(code, r);
    if !r.pc.Claimed? {
      AnsweredLater(code.classes, FlowOfRun(code, r), s.Log(r.wf), more, r.obs);
      if r'.obs != r.obs {
        var o := r'.obs[|r.obs|];
        if Waits(c) {
          if Lookup(code.classes, r.hist, r.At(), c) == Some(o) {
            LookupIsStable(code.classes, r.hist, more, r.At(), c);
          } else {
            LookupIsStable(code.classes, s.Log(r.wf), more, r.At(), c);
          }
        }
        AnsweredNext(code.classes, FlowOfRun(code, r), more, r.obs, o);
        assert r'.obs == r.obs + [o];
      }
    }
  }

  lemma ApplyKeepsJoins(code: Code, cfg: Config, s: State, a: Action)
    requires JoinInv(code, s) && Enabled(code, s, a)
    ensures JoinInv(code, Apply(code, cfg, s, a))
  {
    hide Step, Commit, First, StoreInv, AuditAfter, SeenAfter, PcFits, FlowOf, Lookup, RunAnswered, FamilyInv;
    ApplyKeepsFamily(code, cfg, s, a);
    var t := Apply(code, cfg, s, a);
    forall rid | rid in t.runs
      ensures RunAnswered(code, t, t.runs[rid])
    {
      JoinsAfter(code, cfg, s, a, rid);
    }
  }

  lemma JoinsAfter(code: Code, cfg: Config, s: State, a: Action, rid: RunId)
    requires JoinInv(code, s) && Enabled(code, s, a) && rid in Apply(code, cfg, s, a).runs
    requires Grows(s.store, Apply(code, cfg, s, a).store)
    ensures RunAnswered(code, Apply(code, cfg, s, a), Apply(code, cfg, s, a).runs[rid])
  {
    hide Step, Commit, First, StoreInv, AuditAfter, SeenAfter, PcFits, FlowOf, Lookup;
    var t := Apply(code, cfg, s, a);
    if rid in s.runs {
      var r := s.runs[rid];
      assert RunOk(code, s.store, r) && RunAnswered(code, s, r);
      hide JoinInv;
      if a.Progress? && a.rid == rid {
        ObservesFirst(code, s, r, a.choice);
        MoverAnswered(code, s, r, a.choice, t.Log(r.wf));
      } else {
        AnsweredLater(code.classes, FlowOfRun(code, r), s.Log(r.wf), t.Log(r.wf), r.obs);
      }
    }
  }

  lemma {:induction false} JoinsHold(code: Code, cfg: Config, s: State, acts: seq<Action>)
    requires JoinInv(code, s) && Legal(code, cfg, AnySchedule, s, acts)
    ensures JoinInv(code, Final(code, cfg, AnySchedule, s, acts))
    decreases |acts|
  {
    hide Apply, Enabled, JoinInv;
    if acts != [] {
      ApplyKeepsJoins(code, cfg, s, acts[0]);
      JoinsHold(code, cfg, Apply(code, cfg, s, acts[0]), acts[1..]);
    }
  }

  /** The end of a child, as its join reports it. */
  predicate EndReported(e: Event, child: Id, o: Obs) {
    (e.WorkflowCompleted? ==> o == ChildDone(e.result)) && (e.WorkflowFailed? ==> o == ChildError(child, e.reason))
  }

  /** A join hands over what the first terminal event of the child says. */
  ghost predicate JoinsFirstEnd(childLog: Log, child: Id, o: Obs) {
    exists k ::
      IsFirst(childLog, k, (e: Event) => e.WorkflowCompleted? || e.WorkflowFailed?) && EndReported(childLog[k], child, o)
  }

  lemma OutcomeIsFirstEnd(childLog: Log, child: Id, o: Obs)
    requires FirstOutcome(childLog).Some? && o == ChildObs(child, FirstOutcome(childLog).value)
    ensures JoinsFirstEnd(childLog, child, o)
  {
    FirstIsFound(childLog, Terminal, (e: Event) => e.WorkflowCompleted? || e.WorkflowFailed?);
    hide First;
    var k :| IsFirst(childLog, k, (e: Event) => e.WorkflowCompleted? || e.WorkflowFailed?);
    assert EndReported(childLog[k], child, o);
  }

  /**
   * In every behaviour, overlapping runs and re-runs of finished children included: a run that has passed a
   * wait was given the payload of the first signal of its type, or the outcome in the first completion of
   * the child, so all waits on one signal type agree; and a run that has passed a join of its own child was
   * given the result of the child's first terminal event, or its failure.
   */
  lemma WaitsReturnTheFirst(code: Code, cfg: Config, sch: Schedule, s: State, rid: RunId, i: nat)
    requires Reachable(code, cfg, sch, s)
    requires rid in s.runs && i < |s.runs[rid].obs| && Waits(FlowOfRun(code, s.runs[rid])(s.runs[rid].obs[..i]))
    ensures var r := s.runs[rid]; var c := FlowOfRun(code, r)(r.obs[..i]);
      && Tells(code.classes, s.Log(r.wf), i, c, r.obs[i])
      && (c.WaitChild? && IsChildOf(s.store, c.childId, r.wf) && c.childId in s.store.logs ==>
            JoinsFirstEnd(s.store.logs[c.childId], c.childId, r.obs[i]))
  {
    hide Leads, Final, Legal, First, Count, FlowOf, Apply, Tells, JoinsFirstEnd, Reachable;
    ReachableAnyway(code, cfg, sch, s);
    var now, acts := ReachableBy(code, cfg, AnySchedule, s);
    InitFamily(code, now);
    JoinsHold(code, cfg, Init(now), acts);
    var r := s.runs[rid];
    assert RunAnswered(code, s, r) && RunOk(code, s.store, r);
    var c := FlowOfRun(code, r)(r.obs[..i]);
    assert Lookup(code.classes, s.Log(r.wf), i, c) == Some(r.obs[i]);
    LookupIsWhatTheLogTells(code.classes, s.Log(r.wf), i, c, r.obs[i]);
    if c.WaitChild? && IsChildOf(s.store, c.childId, r.wf) && c.childId in s.store.logs {
      assert DeliveriesOk(s.store, r.wf, c.childId);
      assert FirstDelivery(s.Log(r.wf), c.childId).Some?;
      OutcomeIsFirstEnd(s.store.logs[c.childId], c.childId, r.obs[i]);
    }
  }
}
