/**
 * Terminal rows. A finished row is set running again by a signal to it and by the end of one of its
 * children, and taken to WAITING by the mark of an overlapping run, and by nothing else. While runs of one
 * workflow do not overlap, the terminal events of a log are exactly as many as these reopenings, and one
 * more if the row is terminal now.
 */
module Terminals {
  import opened Wrappers
  import opened Ids
  import opened Serialization
  import opened Events
  import opened Transactions
  import opened Workflows
  import opened Machine
  import opened Cluster
  import opened Family
  import opened Transparency
  import opened Recording
  import Wakes

  // ----- Who reopens a terminal row -----

  ghost predicate Finished(s: State, id: Id) {
    id in s.store.rows && s.store.rows[id].IsTerminal()
  }

  /** The action ends a run of a child of this workflow. */
  ghost predicate EndsChildOf(code: Code, s: State, a: Action, id: Id)
    requires Enabled(code, s, a)
  {
    TxOf(code, s, a).Finish? && IsChildOf(s.store, TxOf(code, s, a).id, id)
  }

  /** It hits a finished row with a signal, or with the end of a child. */
  ghost predicate WakesFinished(code: Code, s: State, a: Action, id: Id)
    requires Enabled(code, s, a)
  {
    Finished(s, id) && ((a.SendSignal? && a.id == id) || EndsChildOf(code, s, a, id))
  }

  /**
   * A run that overlaps with the one that finished the row marks it: the mark looks at the log only, not
   * at the status.
   */
  ghost predicate MarksFinished(code: Code, s: State, a: Action, id: Id)
    requires Enabled(code, s, a)
  {
    var tx := TxOf(code, s, a);
    Finished(s, id) && tx.MarkWaiting? && tx.id == id && First(s.Log(id), tx.awaited).None?
  }

  lemma CommitReopens(s: Store, now: Time, lockDuration: Time, tx: Tx, id: Id)
    requires Valid(s, tx) && Proper(s, tx) && id in s.rows
    requires tx.Finish? && tx.id == id ==> s.rows[id].parent != Some(id)
    ensures var t := Commit(s, now, lockDuration, tx);
      && id in t.rows && (!s.rows[id].IsTerminal() && !(tx.Finish? && tx.id == id) ==> !t.rows[id].IsTerminal())
      && (s.rows[id].IsTerminal() ==>
            (!t.rows[id].IsTerminal() <==>
             || (tx.WriteSignal? && tx.id == id) || (tx.Finish? && IsChildOf(s, tx.id, id))
             || (tx.MarkWaiting? && tx.id == id && First(s.Log(id), tx.awaited).None?)))
  {
    hide First;
  }

  lemma FinishedHasNoRun(code: Code, s: State, a: Action, id: Id)
    requires ExclusiveInv(code, s) && Enabled(code, s, a) && Finished(s, id)
    ensures !Moves(s, a, id)
  {
    hide FamilyInv, Step, First;
  }

  lemma SignalsAreSent(code: Code, s: State, a: Action)
    requires Enabled(code, s, a)
    ensures TxOf(code, s, a).WriteSignal? <==> a.SendSignal?
    ensures a.SendSignal? ==> TxOf(code, s, a).id == a.id
  {
    hide Step, First;
    if a.Progress? {
      MoveShape(code, s, s.runs[a.rid], a.choice);
    }
  }

  /** What a transaction of one's own is about. */
  lemma OwnTransactions(code: Code, s: State, a: Action, id: Id)
    requires Enabled(code, s, a) && !Moves(s, a, id)
    ensures TxOf(code, s, a).MarkWaiting? || TxOf(code, s, a).Finish? || TxOf(code, s, a).WriteEvent? ==>
      TxOf(code, s, a).id != id
    ensures TxOf(code, s, a).CreateChild? ==> TxOf(code, s, a).parent != id
  {
    hide Step, First;
    if a.Progress? {
      MoveShape(code, s, s.runs[a.rid], a.choice);
    }
  }

  /**
   * Under any schedule, an action takes a row out of a terminal status if and only if it is a signal to
   * that workflow, the end of a run of one of its children, or the mark of another run of the workflow
   * whose awaited event is not in the log.
   */
  lemma TerminalRowsReopenExactly(code: Code, cfg: Config, sch: Schedule, s: State, a: Action, id: Id)
    requires Reachable(code, cfg, sch, s) && Enabled(code, s, a) && Finished(s, id)
    ensures id in Apply(code, cfg, s, a).store.rows
    ensures !Finished(Apply(code, cfg, s, a), id) <==> WakesFinished(code, s, a, id) || MarksFinished(code, s, a, id)
  {
    hide Leads, FamilyInv, Step, First;
    ReachableFamily(code, cfg, sch, s);
    hide Reachable, Commit, Proper, Valid;
    ActionIsProper(code, s, a);
    SignalsAreSent(code, s, a);
    FinishIsAboutAnother(code, s, id);
    CommitReopens(s.store, s.now, cfg.lockDuration, TxOf(code, s, a), id);
  }

  /** While runs do not overlap there is no such mark: only a signal and the end of a child's run reopen. */
  lemma TerminalRowsReopenExactlyByWakes(code: Code, cfg: Config, restorable: bool, s: State, a: Action, id: Id)
    requires Reachable(code, cfg, Exclusive(restorable), s) && Enabled(code, s, a) && Finished(s, id)
    ensures id in Apply(code, cfg, s, a).store.rows
    ensures !Finished(Apply(code, cfg, s, a), id) <==> WakesFinished(code, s, a, id)
  {
    hide Leads, FamilyInv, Step, Apply, WakesFinished;
    TerminalRowsReopenExactly(code, cfg, Exclusive(restorable), s, a, id);
    ReachableExclusive(code, cfg, restorable, s);
    hide Reachable;
    FinishedHasNoRun(code, s, a, id);
    hide ExclusiveInv;
    OwnTransactions(code, s, a, id);
  }

  // ----- How many terminal events -----

  /** How often along a behaviour a finished row of this workflow was hit. */
  ghost function Reopenings(code: Code, cfg: Config, sch: Schedule, states: seq<State>, acts: seq<Action>, id: Id): nat
    requires Trace(code, cfg, sch, states, acts)
    decreases |acts|
  {
    if acts == [] then 0
    else
      var n := |acts| - 1;
      TraceInit(code, cfg, sch, states, acts);
      Reopenings(code, cfg, sch, states[..n + 1], acts[..n], id) + if WakesFinished(code, states[n], acts[n], id) then 1 else 0
  }

  function Endings(s: State, id: Id): nat {
    Count(s.Log(id), Terminal)
  }

  lemma OwnEndings(s: Store, log: Log, tx: Tx)
    requires Proper(s, tx)
    ensures Count(OwnLog(s, log, tx), Terminal) == Count(log, Terminal) + if tx.Finish? then 1 else 0
  {
    match tx
    case WriteEvent(_, e) => AppendScans(log, e);
    case CreateChild(_, step, child, name, input) => AppendScans(log, ChildStarted(step, child, name, input));
    case Finish(_, outcome, _) => AppendScans(log, TerminalEvent(outcome));
    case _ =>
  }

  /** The mover's own row becomes terminal exactly when its log gets a terminal event. */
  lemma MoverEnds(code: Code, cfg: Config, s: State, a: Action, id: Id)
    requires ExclusiveInv(code, s) && Enabled(code, s, a) && Moves(s, a, id)
    ensures id in s.store.rows && !Finished(s, id)
    ensures Endings(Apply(code, cfg, s, a), id) ==
      Endings(s, id) + if Finished(Apply(code, cfg, s, a), id) then 1 else 0
  {
    hide Step, Commit, First, Count, FamilyInv, AuditAfter, SeenAfter, PcFits, OneRunEach;
    var r := s.runs[a.rid];
    assert s.store.rows[r.wf].status == RUNNING && FamilyInv(code, s);
    hide ExclusiveInv;
    MoveShape(code, s, r, a.choice);
    ActionIsProper(code, s, a);
    OwnLogIsCommitted(code, s, a, cfg.lockDuration);
    OwnEndings(s.store, s.Log(id), TxOf(code, s, a));
    FinishIsAboutAnother(code, s, id);
    CommitFinishes(s.store, s.now, cfg.lockDuration, TxOf(code, s, a), id);
  }

  lemma FinishIsAboutAnother(code: Code, s: State, id: Id)
    requires FamilyInv(code, s) && id in s.store.rows
    ensures s.store.rows[id].parent != Some(id)
  {
    hide First;
    if s.store.rows[id].parent.Some? {
      ParentIsAnother(s.store, id);
    }
  }

  lemma CommitFinishes(s: Store, now: Time, lockDuration: Time, tx: Tx, id: Id)
    requires Valid(s, tx) && Proper(s, tx) && id in s.rows && s.rows[id].status == RUNNING
    requires tx.Finish? ==> tx.id == id && s.rows[id].parent != Some(id)
    requires !tx.WriteSignal?
    ensures var t := Commit(s, now, lockDuration, tx); id in t.rows && (t.rows[id].IsTerminal() <==> tx.Finish?)
  {
    hide First;
  }

  lemma BystanderEnds(code: Code, cfg: Config, s: State, a: Action, id: Id)
    requires ExclusiveInv(code, s) && Enabled(code, s, a) && id in s.store.rows && !Moves(s, a, id)
    ensures Endings(Apply(code, cfg, s, a), id) == Endings(s, id)
    ensures Finished(Apply(code, cfg, s, a), id) <==> Finished(s, id) && !WakesFinished(code, s, a, id)
  {
    hide Step, Commit, First, Count, FamilyInv, OneRunEach, Proper, Valid;
    assert FamilyInv(code, s);
    hide ExclusiveInv;
    ActionIsProper(code, s, a);
    OwnTransactions(code, s, a, id);
    SignalsAreSent(code, s, a);
    FinishIsAboutAnother(code, s, id);
    CommitReopens(s.store, s.now, cfg.lockDuration, TxOf(code, s, a), id);
    Wakes.OthersWriteFromOutside(code, cfg, s, a, id);
    OutsideEndsNothing(s.Log(id), Apply(code, cfg, s, a).Log(id));
  }

  lemma OutsideEndsNothing(log: Log, more: Log)
    requires Wakes.GrewFromOutside(log, more)
    ensures Count(more, Terminal) == Count(log, Terminal)
  {
    forall p | |log| <= p < |more|
      ensures !Matches(more[p], Terminal)
    {
      assert Wakes.FromOutside(more[p]);
    }
    ScanIgnores(log, more, Terminal);
  }

  lemma StrangerEnds(code: Code, cfg: Config, s: State, a: Action, id: Id)
    requires ExclusiveInv(code, s) && Enabled(code, s, a) && id !in s.store.rows
    ensures Endings(Apply(code, cfg, s, a), id) == Endings(s, id) == 0 && !Finished(Apply(code, cfg, s, a), id)
    ensures !WakesFinished(code, s, a, id)
  {
    hide Step, First, Commit, StoreInv, RunOk, OneRunEach, AuditAfter, SeenAfter;
    RowsHaveLogs(code, s);
    ApplyKeepsFamily(code, cfg, s, a);
    RowsHaveLogs(code, Apply(code, cfg, s, a));
    ActionIsProper(code, s, a);
    hide ExclusiveInv;
    CommitNewcomerRuns(s.store, s.now, cfg.lockDuration, TxOf(code, s, a), id);
  }

  lemma CommitNewcomerRuns(s: Store, now: Time, lockDuration: Time, tx: Tx, id: Id)
    requires Valid(s, tx) && s.rows.Keys == s.logs.Keys && id !in s.rows
    ensures var t := Commit(s, now, lockDuration, tx);
      (id in t.rows ==> !t.rows[id].IsTerminal()) && Count(t.Log(id), Terminal) == 0 && Count(s.Log(id), Terminal) == 0
  {
    hide First;
  }

  lemma StepEnds(code: Code, cfg: Config, s: State, a: Action, id: Id)
    requires ExclusiveInv(code, s) && Enabled(code, s, a)
    ensures var t := Apply(code, cfg, s, a);
      Endings(t, id) + (if Finished(s, id) then 1 else 0) ==
      Endings(s, id) + (if WakesFinished(code, s, a, id) then 1 else 0) + (if Finished(t, id) then 1 else 0)
  {
    hide Apply, Enabled, ExclusiveInv, EndsChildOf, Count;
    if id !in s.store.rows {
      StrangerEnds(code, cfg, s, a, id);
    } else if Moves(s, a, id) {
      MoverEnds(code, cfg, s, a, id);
    } else {
      BystanderEnds(code, cfg, s, a, id);
    }
  }

  /**
   * Endings are conserved. Along every behaviour a log holds exactly as many terminal events as its
   * finished row was reopened, and one more if the row is finished now. So a log never holds a second one
   * without a signal, or the end of a child, that hit the finished row.
   */
  lemma {:induction false} EndingsAreConserved(
    code: Code, cfg: Config, restorable: bool, now: Time, states: seq<State>, acts: seq<Action>, id: Id)
    requires Trace(code, cfg, Exclusive(restorable), states, acts) && states[0] == Init(now)
    ensures ExclusiveInv(code, states[|acts|])
    ensures Count(states[|acts|].Log(id), Terminal) ==
      Reopenings(code, cfg, Exclusive(restorable), states, acts, id) + if Finished(states[|acts|], id) then 1 else 0
    decreases |acts|
  {
    hide Apply, Enabled, Permits, ExclusiveInv, WakesFinished;
    assert |states| == |acts| + 1;
    hide Trace;
    if acts == [] {
      StartsExclusive(code, now);
      assert states[0].Log(id) == [];
    } else {
      var n := |acts| - 1;
      TraceInit(code, cfg, Exclusive(restorable), states, acts);
      EndingsAreConserved(code, cfg, restorable, now, states[..n + 1], acts[..n], id);
      StepEnds(code, cfg, states[n], acts[n], id);
      ApplyKeepsExclusive(code, cfg, restorable, states[n], acts[n]);
    }
  }

  lemma StartsExclusive(code: Code, now: Time)
    ensures ExclusiveInv(code, Init(now))
  {
    InitFamily(code, now);
  }

  /** While nothing hits it when it is finished, a workflow ends at most once: exactly once, if it has ended. */
  lemma EndsOnceUnlessHit(
    code: Code, cfg: Config, restorable: bool, now: Time, states: seq<State>, acts: seq<Action>, id: Id)
    requires Trace(code, cfg, Exclusive(restorable), states, acts) && states[0] == Init(now)
    requires forall i {:trigger acts[i]} :: 0 <= i < |acts| ==> !WakesFinished(code, states[i], acts[i], id)
    ensures Count(states[|acts|].Log(id), Terminal) == if Finished(states[|acts|], id) then 1 else 0
  {
    hide Apply, Enabled, Permits, ExclusiveInv, WakesFinished, Reopenings, Finished;
    EndingsAreConserved(code, cfg, restorable, now, states, acts, id);
    NeverHit(code, cfg, Exclusive(restorable), states, acts, id);
  }

  lemma {:induction false} NeverHit(
    code: Code, cfg: Config, sch: Schedule, states: seq<State>, acts: seq<Action>, id: Id)
    requires Trace(code, cfg, sch, states, acts)
    requires forall i {:trigger acts[i]} :: 0 <= i < |acts| ==> !WakesFinished(code, states[i], acts[i], id)
    ensures Reopenings(code, cfg, sch, states, acts, id) == 0
    decreases |acts|
  {
    hide Apply, Enabled, Permits, WakesFinished;
    if acts != [] {
      var n := |acts| - 1;
      TraceInit(code, cfg, sch, states, acts);
      assert !WakesFinished(code, states[n], acts[n], id);
      forall i {:trigger acts[..n][i]} | 0 <= i < n
        ensures !WakesFinished(code, states[..n + 1][i], acts[..n][i], id)
      {
        assert acts[..n][i] == acts[i];
      }
      NeverHit(code, cfg, sch, states[..n + 1], acts[..n], id);
    }
  }
}
