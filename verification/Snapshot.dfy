/**
 * A run loads its history once, at its start. This is as good as reloading it before every step: the
 * reloading system matches every behaviour, with the same results, rows and runs, and with the same
 * logs but for waiting markers that a run with an old snapshot writes needlessly.
 */
module Snapshot {
  import opened Wrappers
  import opened Ids
  import opened Serialization
  import opened Events
  import opened Transactions
  import opened Workflows
  import opened Machine
  import opened Cluster
  import opened Family
  import opened Replay
  import opened Transparency
  import opened Recording
  import Wakes

  // ----- Logs up to waiting markers -----

  predicate IsMarker(e: Event) {
    e.SignalWaiting? || e.ChildWaiting?
  }

  /** What the waiter behind a marker waits for. */
  function AwaitedBy(e: Event): Query
    requires IsMarker(e)
  {
    if e.SignalWaiting? then Received(e.signalType) else ChildResult(e.childId)
  }

  function Erase(log: Log): Log {
    if log == [] then []
    else Erase(log[..|log| - 1]) + if IsMarker(log[|log| - 1]) then [] else [log[|log| - 1]]
  }

  predicate AsksForMarkers(q: Query) {
    q.SignalMarker? || q.ChildMarker?
  }

  lemma EraseAppend(log: Log, e: Event)
    ensures Erase(log + [e]) == Erase(log) + if IsMarker(e) then [] else [e]
  {
    assert (log + [e])[..|log|] == log;
  }

  /** Only scans for markers see markers. */
  lemma {:induction false} EraseScans(log: Log, q: Query)
    requires !AsksForMarkers(q)
    ensures First(Erase(log), q) == First(log, q) && Count(Erase(log), q) == Count(log, q)
  {
    if log != [] {
      var init, e := log[..|log| - 1], log[|log| - 1];
      assert IsMarker(e) ==> !Matches(e, q);
      hide Matches, First, Count;
      EraseScans(init, q);
      assert log == init + [e];
      FirstOfAppend(init, e, q);
      CountOfAppend(init, e, q);
      FirstOfAppend(Erase(init), e, q);
      CountOfAppend(Erase(init), e, q);
      EraseAppend(init, e);
      assert Erase(init) + [] == Erase(init);
    }
  }

  /** Equal but for markers; and while an event is absent, equal in whether its waiter has left a marker. */
  ghost predicate SameButMarkers(a: Log, b: Log) {
    && Erase(a) == Erase(b)
    && forall e {:trigger AwaitedBy(e)} :: IsMarker(e) && First(a, AwaitedBy(e)).None? ==> (e in a <==> e in b)
  }

  lemma SameScans(a: Log, b: Log, q: Query)
    requires SameButMarkers(a, b) && !AsksForMarkers(q)
    ensures First(a, q) == First(b, q) && Count(a, q) == Count(b, q)
  {
    EraseScans(a, q);
    EraseScans(b, q);
  }

  lemma SameAppend(a: Log, b: Log, e: Event)
    requires SameButMarkers(a, b)
    ensures SameButMarkers(a + [e], b + [e])
  {
    EraseAppend(a, e);
    EraseAppend(b, e);
    AppendScans(a, e);
    hide First, Count, Erase;
    forall m {:trigger AwaitedBy(m)} | IsMarker(m) && First(a + [e], AwaitedBy(m)).None?
      ensures m in a + [e] <==> m in b + [e]
    {
      assert First(a, AwaitedBy(m)).None?;
    }
  }

  /** A marker for an event that is already there. */
  lemma SameWithout(a: Log, b: Log, e: Event)
    requires SameButMarkers(a, b) && IsMarker(e) && First(a, AwaitedBy(e)).Some?
    ensures SameButMarkers(a + [e], b)
  {
    EraseAppend(a, e);
    AppendScans(a, e);
    hide First, Count, Erase;
    forall m {:trigger AwaitedBy(m)} | IsMarker(m) && First(a + [e], AwaitedBy(m)).None?
      ensures m in a + [e] <==> m in b
    {
      assert First(a, AwaitedBy(m)).None?;
    }
  }

  ghost predicate SameStores(s: Store, t: Store) {
    && s.rows == t.rows && s.logs.Keys == t.logs.Keys
    && forall id {:trigger s.logs[id]} {:trigger t.logs[id]} :: id in s.logs ==> SameButMarkers(s.logs[id], t.logs[id])
  }

  lemma AppendSame(s: Store, t: Store, id: Id, e: Event)
    requires SameStores(s, t) && id in s.logs
    ensures SameStores(s.Append(id, e), t.Append(id, e))
  {
    hide SameButMarkers;
    SameAppend(s.logs[id], t.logs[id], e);
  }

  lemma FreshLogSame(e: Event)
    ensures SameButMarkers([e], [e])
  {
  }

  /** The same transaction does the same to both. */
  lemma CommitSame(s: Store, t: Store, now: Time, lockDuration: Time, tx: Tx)
    requires SameStores(s, t) && Valid(s, tx) && (tx.MarkWaiting? ==> !AsksForMarkers(tx.awaited))
    ensures Valid(t, tx) && SameStores(Commit(s, now, lockDuration, tx), Commit(t, now, lockDuration, tx))
  {
    hide First, SameButMarkers;
    match tx
    case CreateWorkflow(id, name, input) =>
      FreshLogSame(Started(input, None));
    case CreateChild(parent, step, child, name, input) =>
      if child !in s.rows {
        var e := Started(input, Some(ParentInfo(parent, child)));
        FreshLogSame(e);
        var s' := Store(s.rows[child := NewRow(name, Some(parent), now)], s.logs[child := [e]]);
        var t' := Store(t.rows[child := NewRow(name, Some(parent), now)], t.logs[child := [e]]);
        AppendSame(s', t', parent, ChildStarted(step, child, name, input));
      }
    case WriteEvent(id, e) => AppendSame(s, t, id, e);
    case MarkWaiting(id, awaited) => SameScans(s.logs[id], t.logs[id], awaited);
    case WriteSignal(id, ty, payload) => AppendSame(s, t, id, Signal(ty, payload));
    case Finish(id, outcome, parent) =>
      AppendSame(s, t, id, TerminalEvent(outcome));
      if parent.Some? {
        AppendSame(s.Append(id, TerminalEvent(outcome)), t.Append(id, TerminalEvent(outcome)),
                   parent.value.workflowId, ChildSignal(parent.value.childId, outcome));
      }
    case NoTx =>
    case ClaimWorkflow(_, _) =>
    case ExtendLock(_) =>
    case Reschedule(_, _) =>
  }

  // ----- The reloading system -----

  /** Every run that has loaded its history holds the log as it is now. */
  function Reload(s: State, r: Run): Run {
    if r.pc.Claimed? then r else r.(hist := s.Log(r.wf))
  }

  function Reloaded(s: State): State {
    s.(runs := map rid | rid in s.runs :: Reload(s, s.runs[rid]))
  }

  ghost predicate ReloadingLegal(code: Code, cfg: Config, restorable: bool, s: State, acts: seq<Action>)
    decreases |acts|
  {
    acts == [] || (
      && Enabled(code, s, acts[0]) && Permits(code, Exclusive(restorable), s, acts[0])
      && ReloadingLegal(code, cfg, restorable, Reloaded(Apply(code, cfg, s, acts[0])), acts[1..]))
  }

  ghost function ReloadingFinal(code: Code, cfg: Config, restorable: bool, s: State, acts: seq<Action>): State
    requires ReloadingLegal(code, cfg, restorable, s, acts)
    decreases |acts|
  {
    if acts == [] then s else ReloadingFinal(code, cfg, restorable, Reloaded(Apply(code, cfg, s, acts[0])), acts[1..])
  }

  // ----- The simulation -----

  /** With an old snapshot a run may be on its way through a refused mark where a fresh one just reads the event. */
  ghost predicate Detour(code: Code, log: Log, r: Run) {
    && (r.pc.Marking? || r.pc.Reloading?) && Waits(CommandOf(code, r))
    && First(log, Settles(r.At(), CommandOf(code, r))).Some?
  }

  ghost predicate SameRun(code: Code, s: State, f: State, rid: RunId)
    requires rid in s.runs && rid in f.runs
  {
    var r := s.runs[rid];
    || f.runs[rid] == Reload(f, r)
    || (Detour(code, s.Log(r.wf), r) && f.runs[rid] == Reload(f, r).(pc := Deciding))
  }

  /** Same clock, rows, traces and counters; same logs up to markers; same runs up to snapshots and detours. */
  ghost predicate Simulates(code: Code, s: State, f: State) {
    && f.now == s.now && f.seen == s.seen && f.audit == s.audit
    && SameStores(s.store, f.store)
    && f.runs.Keys == s.runs.Keys
    && forall rid {:trigger s.runs[rid]} {:trigger f.runs[rid]} :: rid in s.runs ==> SameRun(code, s, f, rid)
  }

  /** Markers a run has not loaded stand for events that have come, or for the wait it is at. */
  ghost predicate MarkersKnown(code: Code, log: Log, r: Run) {
    !r.pc.Claimed? ==> forall p {:trigger log[p]} :: |r.hist| <= p < |log| && IsMarker(log[p]) ==>
      || First(log, AwaitedBy(log[p])).Some?
      || ((r.pc.Marking? || r.pc.Reloading?) && Waits(CommandOf(code, r)) && log[p] == MarkerEvent(CommandOf(code, r)))
  }

  ghost predicate SnapshotInv(code: Code, s: State) {
    && RecordInv(code, s)
    && forall rid {:trigger s.runs[rid]} :: rid in s.runs ==> MarkersKnown(code, s.Log(s.runs[rid].wf), s.runs[rid])
  }

  // ----- One step of a run, with the old snapshot and with the current log -----

  /** Everything the step of `r` reads, it reads from `now` as well. */
  ghost predicate SameView(code: Code, log: Log, r: Run, current: Log) {
    var n, c := r.At(), CommandOf(code, r);
    && First(current, IsStarted) == First(r.hist, IsStarted)
    && (!c.Return? && !c.Raise? && r.pc.Deciding? ==> First(current, Settles(n, c)) == First(r.hist, Settles(n, c)))
    && (Waits(c) && (r.pc.Marking? || r.pc.Reloading?) ==> First(current, Settles(n, c)) == First(log, Settles(n, c)))
    && (c.Activity? && r.pc.Deciding? ==> First(current, AtStep(n, ScheduledKind)) == First(r.hist, AtStep(n, ScheduledKind)))
    && (Waits(c) && r.pc.Deciding? && First(current, Settles(n, c)).None? ==>
          (First(current, Marker(c)).Some? <==> First(r.hist, Marker(c)).Some?))
    && (r.pc.BodyRunning? ==> Count(current, AtStep(n, FailedKind)) == Count(r.hist, AtStep(n, FailedKind)))
  }

  lemma SameMove(code: Code, log: Log, current: Log, now: Time, r: Run, choice: Choice)
    requires CanStep(code, r, choice) && !r.pc.Claimed? && SameView(code, log, r, current)
    ensures CanStep(code, r.(hist := current), choice)
    ensures var m, m' := Step(code, log, now, r, choice), Step(code, current, now, r.(hist := current), choice);
      && m'.tx == m.tx && (m'.next.Some? <==> m.next.Some?)
      && (m.next.Some? ==> m'.next.value == m.next.value.(hist := current))
  {
    hide First, Count, ChildId, ToJsonSafe, FromJsonSafe, SerializeArguments, ObsOf;
  }

  lemma MarkerInLog(log: Log, c: Command)
    requires Waits(c)
    ensures First(log, Marker(c)).Some? <==> MarkerEvent(c) in log
    ensures IsMarker(MarkerEvent(c)) && forall n: nat :: AwaitedBy(MarkerEvent(c)) == Settles(n, c)
    ensures forall e :: Matches(e, Marker(c)) <==> e == MarkerEvent(c)
  {
    ScanIsExact(log, Marker(c));
  }

  /** This run's snapshot misses the event it is about to wait for. */
  ghost predicate StartsDetour(code: Code, log: Log, r: Run) {
    && r.pc.Deciding? && Waits(CommandOf(code, r))
    && First(r.hist, Settles(r.At(), CommandOf(code, r))).None?
    && First(log, Settles(r.At(), CommandOf(code, r))).Some?
  }

  ghost predicate Current(code: Code, s: State, r: Run) {
    FamilyInv(code, s) && RunOk(code, s.store, r) && OnRecord(code, s, r) && MarkersKnown(code, s.Log(r.wf), r)
  }

  /** What a run reads in its snapshot about the step it is at is what the log says now. */
  lemma ViewOfSettled(code: Code, s: State, r: Run, n: nat, c: Command)
    requires Current(code, s, r) && r.pc.Deciding? && !StartsDetour(code, s.Log(r.wf), r)
    requires n == r.At() && c == CommandOf(code, r) && !c.Return? && !c.Raise?
    ensures First(s.Log(r.wf), Settles(n, c)) == First(r.hist, Settles(n, c))
    ensures c.Activity? ==> First(s.Log(r.wf), AtStep(n, ScheduledKind)) == First(r.hist, AtStep(n, ScheduledKind))
  {
    var log := s.Log(r.wf);
    StartOfHistory(s.store, r);
    hide First, Count, Matches, StoreInv, FlowOf;
    match c
    case Activity(_, _, _, _) =>
      SnapshotAgrees(r.hist, log, n, r.pc, CompletedKind);
      SnapshotAgrees(r.hist, log, n, r.pc, ScheduledKind);
    case Sleep(_) => SnapshotAgrees(r.hist, log, n, r.pc, SleepingKind);
    case Spawn(_, _) => SnapshotAgrees(r.hist, log, n, r.pc, ChildStartedKind);
    case WaitSignal(_) =>
      if First(r.hist, Settles(n, c)).Some? {
        FirstIsStable(r.hist, log, Settles(n, c));
      }
    case WaitChild(_) =>
      if First(r.hist, Settles(n, c)).Some? {
        FirstIsStable(r.hist, log, Settles(n, c));
      }
  }

  lemma ViewOfMarker(code: Code, s: State, r: Run, current: Log, n: nat, c: Command)
    requires Current(code, s, r) && r.pc.Deciding? && SameButMarkers(s.Log(r.wf), current)
    requires c == CommandOf(code, r) && Waits(c) && First(s.Log(r.wf), Settles(n, c)).None?
    ensures First(current, Marker(c)).Some? <==> First(r.hist, Marker(c)).Some?
  {
    var log := s.Log(r.wf);
    MarkerInLog(log, c);
    MarkerInLog(r.hist, c);
    MarkerInLog(current, c);
    assert AwaitedBy(MarkerEvent(c)) == Settles(n, c);
    hide First, Count, Matches, FlowOf;
    if MarkerEvent(c) in log {
      var p :| 0 <= p < |log| && log[p] == MarkerEvent(c);
      if p < |r.hist| {
        assert r.hist[p] == log[p];
      }
    }
  }

  lemma ViewOf(code: Code, s: State, r: Run, current: Log)
    requires Current(code, s, r) && !r.pc.Claimed? && SameButMarkers(s.Log(r.wf), current)
    requires !StartsDetour(code, s.Log(r.wf), r)
    ensures SameView(code, s.Log(r.wf), r, current)
  {
    var n, c, log := r.At(), CommandOf(code, r), s.Log(r.wf);
    StartOfHistory(s.store, r);
    SameScans(log, current, IsStarted);
    if !c.Return? && !c.Raise? {
      SameScans(log, current, Settles(n, c));
      SameScans(log, current, AtStep(n, ScheduledKind));
      if r.pc.Deciding? {
        ViewOfSettled(code, s, r, n, c);
        if Waits(c) && First(log, Settles(n, c)).None? {
          ViewOfMarker(code, s, r, current, n, c);
        }
      }
    }
    if r.pc.BodyRunning? {
      SnapshotAgrees(r.hist, log, n, r.pc, FailedKind);
      SameScans(log, current, AtStep(n, FailedKind));
    }
    hide First, Count, SameButMarkers, FlowOf, Current;
  }

  /** A step of a detour writes at most a needless marker, and stays at the same step of the workflow. */
  lemma DetourMove(code: Code, s: State, r: Run, choice: Choice)
    requires CanStep(code, r, choice)
    requires StartsDetour(code, s.Log(r.wf), r) || (r.pc.Marking? && Detour(code, s.Log(r.wf), r))
    ensures var m, c := MoveOf(code, s, r, choice), CommandOf(code, r);
      && m.next == Some(r.(pc := if r.pc.Deciding? then Marking else Reloading))
      && (m.tx == NoTx || m.tx == WriteEvent(r.wf, MarkerEvent(c)) || m.tx == MarkWaiting(r.wf, Settles(r.At(), c)))
      && Detour(code, s.Log(r.wf), m.next.value)
  {
    hide First, Count, ChildId, ToJsonSafe, FromJsonSafe, SerializeArguments, ObsOf;
  }

  /** The end of a detour is what the fresh run does at once: it reads the event. */
  lemma DetourEnds(code: Code, s: State, r: Run, choice: Choice, current: Log)
    requires CanStep(code, r, choice) && r.pc.Reloading? && Detour(code, s.Log(r.wf), r)
    requires First(current, IsStarted) == First(r.hist, IsStarted)
    requires First(current, Settles(r.At(), CommandOf(code, r))) == First(s.Log(r.wf), Settles(r.At(), CommandOf(code, r)))
    ensures var fr := r.(hist := current, pc := Deciding);
      && CanStep(code, fr, choice)
      && var m, m' := MoveOf(code, s, r, choice), Step(code, current, s.now, fr, choice);
        m'.tx == m.tx && m.next.Some? && m'.next == Some(m.next.value.(hist := current))
  {
    hide First, Count, ChildId, ToJsonSafe, FromJsonSafe, SerializeArguments, ObsOf;
  }

  /** Steps the reloading system has no counterpart for. */
  ghost predicate Stutters(code: Code, s: State, f: State, a: Action) {
    a.Progress? && a.rid in s.runs && a.rid in f.runs &&
    var r := s.runs[a.rid];
    StartsDetour(code, s.Log(r.wf), r) || (r.pc.Marking? && f.runs[a.rid].pc.Deciding?)
  }

  /** Two runs make the same move, but for the snapshot they end up with. */
  ghost predicate SameMoves(code: Code, s: State, f: State, r: Run, fr: Run, choice: Choice) {
    && fr.wf == r.wf && fr.obs == r.obs && CanStep(code, r, choice) && CanStep(code, fr, choice)
    && CommandOf(code, fr) == CommandOf(code, r)
    && (fr.pc == r.pc || (r.pc.Reloading? && fr.pc.Deciding?))
    && var m, m' := MoveOf(code, s, r, choice), MoveOf(code, f, fr, choice);
      && m'.tx == m.tx && (m'.next.Some? <==> m.next.Some?)
      && (m.next.Some? ==> Reload(f, m'.next.value) == Reload(f, m.next.value))
  }

  lemma ClaimedMatched(code: Code, s: State, f: State, r: Run, choice: Choice)
    requires CanStep(code, r, choice) && r.pc.Claimed? && f.now == s.now
    ensures SameMoves(code, s, f, r, r, choice)
  {
    hide First;
  }

  lemma OnPathMatched(code: Code, s: State, f: State, r: Run, choice: Choice)
    requires CanStep(code, r, choice) && !r.pc.Claimed? && f.now == s.now
    requires Current(code, s, r) && SameButMarkers(s.Log(r.wf), f.Log(r.wf)) && !StartsDetour(code, s.Log(r.wf), r)
    ensures SameMoves(code, s, f, r, Reload(f, r), choice)
  {
    ViewOf(code, s, r, f.Log(r.wf));
    SameMove(code, s.Log(r.wf), f.Log(r.wf), s.now, r, choice);
    if MoveOf(code, s, r, choice).next.Some? {
      MoveShape(code, s, r, choice);
    }
    hide First, SameButMarkers, Current, Step;
  }

  lemma DetourMatched(code: Code, s: State, f: State, r: Run, choice: Choice)
    requires CanStep(code, r, choice) && f.now == s.now && Current(code, s, r)
    requires r.pc.Reloading? && Detour(code, s.Log(r.wf), r) && SameButMarkers(s.Log(r.wf), f.Log(r.wf))
    ensures SameMoves(code, s, f, r, Reload(f, r).(pc := Deciding), choice)
  {
    StartOfHistory(s.store, r);
    SameScans(s.Log(r.wf), f.Log(r.wf), IsStarted);
    SameScans(s.Log(r.wf), f.Log(r.wf), Settles(r.At(), CommandOf(code, r)));
    DetourEnds(code, s, r, choice, f.Log(r.wf));
    hide First, SameButMarkers, Current, Step;
  }

  /** Any other step is matched by the same step of the fresh run. */
  lemma MoveMatched(code: Code, s: State, f: State, a: Action)
    requires SnapshotInv(code, s) && Simulates(code, s, f) && Enabled(code, s, a) && a.Progress? && !Stutters(code, s, f, a)
    ensures SameMoves(code, s, f, s.runs[a.rid], f.runs[a.rid], a.choice)
  {
    var r, fr := s.runs[a.rid], f.runs[a.rid];
    hide First, SameButMarkers, Current, Step, FlowOf, SnapshotInv, SameMoves, Commit, Row.Claimable, Detour;
    SnapshotCurrentRun(code, s, a.rid);
    assert SameRun(code, s, f, a.rid) && SameButMarkers(s.Log(r.wf), f.Log(r.wf)) && f.now == s.now;
    hide Simulates, Valid;
    if r.pc.Claimed? {
      ClaimedMatched(code, s, f, r, a.choice);
    } else if fr == Reload(f, r) {
      OnPathMatched(code, s, f, r, a.choice);
    } else {
      DetourMatched(code, s, f, r, a.choice);
    }
  }

  // ----- Whole actions -----

  lemma SnapshotCurrentRun(code: Code, s: State, rid: RunId)
    requires SnapshotInv(code, s) && rid in s.runs
    ensures Current(code, s, s.runs[rid]) && s.store.Has(s.runs[rid].wf)
  {
    assert RunOk(code, s.store, s.runs[rid]) && OnRecord(code, s, s.runs[rid]);
    assert MarkersKnown(code, s.Log(s.runs[rid].wf), s.runs[rid]);
  }

  lemma ValidSame(s: Store, t: Store, tx: Tx)
    requires SameStores(s, t) && Valid(s, tx)
    ensures Valid(t, tx)
  {
    hide SameButMarkers;
  }

  /** A matched action is one the reloading system can take, with the same transaction. */
  lemma ActionMatched(code: Code, restorable: bool, s: State, f: State, a: Action)
    requires SnapshotInv(code, s) && Simulates(code, s, f) && !Stutters(code, s, f, a)
    requires Enabled(code, s, a) && Permits(code, Exclusive(restorable), s, a)
    ensures Enabled(code, f, a) && Permits(code, Exclusive(restorable), f, a)
    ensures TxOf(code, f, a) == TxOf(code, s, a) && (TxOf(code, s, a).MarkWaiting? ==> !AsksForMarkers(TxOf(code, s, a).awaited))
  {
    hide First, Step, CommandOf, SnapshotInv, SameButMarkers, RestoredResult, ToJsonSafe, PcFits, Stutters, SameRun;
    if a.Progress? {
      ProgressMatched(code, restorable, s, f, a);
    } else {
      SameOwners(code, s, f);
    }
  }

  lemma ProgressMatched(code: Code, restorable: bool, s: State, f: State, a: Action)
    requires SnapshotInv(code, s) && Simulates(code, s, f) && !Stutters(code, s, f, a)
    requires Enabled(code, s, a) && Permits(code, Exclusive(restorable), s, a) && a.Progress?
    ensures Enabled(code, f, a) && Permits(code, Exclusive(restorable), f, a)
    ensures TxOf(code, f, a) == TxOf(code, s, a) && (TxOf(code, s, a).MarkWaiting? ==> !AsksForMarkers(TxOf(code, s, a).awaited))
  {
    hide First, Step, CommandOf, SnapshotInv, SameButMarkers, RestoredResult, ToJsonSafe, PcFits, Stutters;
    hide SameRun, Valid;
    assert SameStores(s.store, f.store) && f.runs.Keys == s.runs.Keys;
    hide Simulates, SameStores;
    MoveMatched(code, s, f, a);
    AwaitedIsNoMarker(code, s, s.runs[a.rid], a.choice);
    ValidSame(s.store, f.store, TxOf(code, s, a));
  }

  /** Each run of the reloading system is on the same workflow as its counterpart. */
  lemma SameOwners(code: Code, s: State, f: State)
    requires Simulates(code, s, f)
    ensures f.runs.Keys == s.runs.Keys
    ensures forall rid {:trigger s.runs[rid]} {:trigger f.runs[rid]} :: rid in s.runs ==>
      f.runs[rid].wf == s.runs[rid].wf && f.runs[rid].worker == s.runs[rid].worker
      && f.runs[rid].obs == s.runs[rid].obs && f.runs[rid].due == s.runs[rid].due
  {
    hide SameStores, Detour;
    forall rid | rid in s.runs
      ensures f.runs[rid].wf == s.runs[rid].wf && f.runs[rid].worker == s.runs[rid].worker
      ensures f.runs[rid].obs == s.runs[rid].obs && f.runs[rid].due == s.runs[rid].due
    {
      assert SameRun(code, s, f, rid);
    }
  }

  lemma AwaitedIsNoMarker(code: Code, s: State, r: Run, choice: Choice)
    requires CanStep(code, r, choice)
    ensures var tx := MoveOf(code, s, r, choice).tx; tx.MarkWaiting? ==> !AsksForMarkers(tx.awaited)
  {
    hide First, Count, ChildId, ToJsonSafe, FromJsonSafe, SerializeArguments, ObsOf;
  }

  lemma CommandSame(code: Code, s: State, f: State, rid: RunId)
    requires SnapshotInv(code, s) && Simulates(code, s, f) && rid in s.runs
    ensures f.runs[rid].pc == s.runs[rid].pc || ((s.runs[rid].pc.Marking? || s.runs[rid].pc.Reloading?) && f.runs[rid].pc.Deciding?)
    ensures CommandOf(code, f.runs[rid]) == CommandOf(code, s.runs[rid])
  {
    hide First, SameButMarkers, OnRecord, StoreInv, MarkersKnown;
    var r := s.runs[rid];
    assert SameRun(code, s, f, rid) && RunOk(code, s.store, r) && StoreInv(s.store);
    assert s.store.Has(r.wf) && SameButMarkers(s.Log(r.wf), f.Log(r.wf));
    hide SnapshotInv, Simulates;
    if !r.pc.Claimed? {
      StartOfHistory(s.store, r);
      SameScans(s.Log(r.wf), f.Log(r.wf), IsStarted);
    }
  }

  lemma AuditMatched(code: Code, s: State, f: State, a: Action)
    requires SnapshotInv(code, s) && Simulates(code, s, f) && Enabled(code, s, a) && Enabled(code, f, a)
    requires TxOf(code, f, a) == TxOf(code, s, a) && !Stutters(code, s, f, a)
    ensures AuditAfter(code, f, a) == AuditAfter(code, s, a)
  {
    hide First, Step, CommandOf, RecordInv, MarkersKnown, Valid, PcFits, Stutters, Row.Claimable, SameRun, FamilyInv;
    RecordIsExclusive(code, s);
    hide SnapshotInv;
    assert f.audit == s.audit && f.store.rows == s.store.rows && f.runs.Keys == s.runs.Keys;
    AwaitedMatched(code, s, f, a);
    hide Simulates, AwaitedAfter, Reopens, SameStores, FamilyInv;
    SameOwners(code, s, f);
    if a.Crash? || a.Progress? {
      CommandSame(code, s, f, a.rid);
    }
  }

  lemma AwaitedMatched(code: Code, s: State, f: State, a: Action)
    requires SameStores(s.store, f.store) && f.audit == s.audit && FamilyInv(code, s) && Enabled(code, s, a)
    ensures AwaitedAfter(f, TxOf(code, s, a)) == AwaitedAfter(s, TxOf(code, s, a))
    ensures Reopens(f.store, TxOf(code, s, a)) == Reopens(s.store, TxOf(code, s, a))
  {
    var tx := TxOf(code, s, a);
    RowsHaveLogs(code, s);
    ActionIsProper(code, s, a);
    if tx.MarkWaiting? {
      if a.Progress? {
        AwaitedIsNoMarker(code, s, s.runs[a.rid], a.choice);
      }
      SameScans(s.store.logs[tx.id], f.store.logs[tx.id], tx.awaited);
    }
    hide First, Step, SameButMarkers, FamilyInv;
  }

  lemma SeenMatched(code: Code, s: State, f: State, a: Action)
    requires SnapshotInv(code, s) && Simulates(code, s, f) && Enabled(code, s, a) && Enabled(code, f, a) && !Stutters(code, s, f, a)
    ensures SeenAfter(code, f, a) == SeenAfter(code, s, a)
  {
    hide First, Step, CommandOf, SnapshotInv, Valid, PcFits, Stutters, SameRun;
    assert f.seen == s.seen;
    hide Simulates;
    if a.Progress? {
      MoveMatched(code, s, f, a);
    }
  }

  /** A run that an action leaves alone is still matched. */
  lemma RunCarries(code: Code, s: State, f: State, s': State, f': State, rid: RunId)
    requires rid in s.runs && rid in f.runs && rid in s'.runs && rid in f'.runs && SameRun(code, s, f, rid)
    requires s'.runs[rid] == s.runs[rid].(due := s'.runs[rid].due)
    requires f'.runs[rid] == Reload(f', f.runs[rid]).(due := s'.runs[rid].due)
    requires s.Log(s.runs[rid].wf) <= s'.Log(s.runs[rid].wf)
    ensures SameRun(code, s', f', rid)
  {
    var r := s.runs[rid];
    if f.runs[rid] != Reload(f, r) {
      FirstIsStable(s.Log(r.wf), s'.Log(r.wf), Settles(r.At(), CommandOf(code, r)));
    }
    hide First;
  }

  lemma LogOfRunGrows(code: Code, cfg: Config, s: State, a: Action, r: Run)
    requires FamilyInv(code, s) && RunOk(code, s.store, r) && Enabled(code, s, a)
    ensures s.Log(r.wf) <= Apply(code, cfg, s, a).Log(r.wf)
  {
    ApplyKeepsFamily(code, cfg, s, a);
    hide First, Step, Commit, StoreInv;
  }

  lemma RunsMatched(code: Code, cfg: Config, s: State, f: State, a: Action, rid: RunId)
    requires SnapshotInv(code, s) && Simulates(code, s, f) && Enabled(code, s, a) && Enabled(code, f, a) && !Stutters(code, s, f, a)
    requires rid in Apply(code, cfg, s, a).runs
    ensures rid in Apply(code, cfg, f, a).runs
    ensures SameRun(code, Apply(code, cfg, s, a), Reloaded(Apply(code, cfg, f, a)), rid)
  {
    hide First, Step, Commit, CommandOf, Valid, PcFits, AuditAfter, SeenAfter, Stutters, SameRun, StoreInv;
    hide OnRecord;
    var s', f' := Apply(code, cfg, s, a), Reloaded(Apply(code, cfg, f, a));
    assert f.runs.Keys == s.runs.Keys && f.now == s.now && f.store.rows == s.store.rows;
    if rid !in s.runs {
      NewRunMatched(code, cfg, s, f, a, rid);
    } else if a.Progress? && a.rid == rid {
      hide Enabled, RunsAfter, SnapshotInv, Simulates;
      MoveMatched(code, s, f, a);
      MoverMatched(code, cfg, s, f, a);
    } else {
      SameOwners(code, s, f);
      assert SameRun(code, s, f, rid) && RunOk(code, s.store, s.runs[rid]);
      hide Enabled, RunsAfter, SnapshotInv, Simulates;
      LogOfRunGrows(code, cfg, s, a, s.runs[rid]);
      OtherRunsMatched(code, cfg, s, f, a, rid);
      RunCarries(code, s, f, s', f', rid);
    }
  }

  lemma NewRunMatched(code: Code, cfg: Config, s: State, f: State, a: Action, rid: RunId)
    requires Enabled(code, s, a) && Enabled(code, f, a) && f.now == s.now && f.store.rows == s.store.rows && f.runs.Keys == s.runs.Keys
    requires rid !in s.runs && rid in Apply(code, cfg, s, a).runs
    ensures rid in Apply(code, cfg, f, a).runs
    ensures SameRun(code, Apply(code, cfg, s, a), Reloaded(Apply(code, cfg, f, a)), rid)
  {
    hide First, Step, Commit, CommandOf, Valid, PcFits, AuditAfter, SeenAfter, Detour;
  }

  lemma MoverMatched(code: Code, cfg: Config, s: State, f: State, a: Action)
    requires Enabled(code, s, a) && Enabled(code, f, a) && a.Progress? && a.rid in Apply(code, cfg, s, a).runs
    requires SameMoves(code, s, f, s.runs[a.rid], f.runs[a.rid], a.choice)
    ensures a.rid in Apply(code, cfg, f, a).runs
    ensures SameRun(code, Apply(code, cfg, s, a), Reloaded(Apply(code, cfg, f, a)), a.rid)
  {
    hide First, Step, Commit, CommandOf, Valid, PcFits, AuditAfter, SeenAfter, Detour;
  }

  lemma OtherRunsMatched(code: Code, cfg: Config, s: State, f: State, a: Action, rid: RunId)
    requires Enabled(code, s, a) && Enabled(code, f, a) && f.now == s.now && f.runs.Keys == s.runs.Keys
    requires rid in s.runs && !(a.Progress? && a.rid == rid) && rid in Apply(code, cfg, s, a).runs
    requires f.runs[rid].due == s.runs[rid].due
    ensures rid in Apply(code, cfg, f, a).runs
    ensures var s', f' := Apply(code, cfg, s, a), Reloaded(Apply(code, cfg, f, a));
      && s'.runs[rid] == s.runs[rid].(due := s'.runs[rid].due)
      && f'.runs[rid] == Reload(f', f.runs[rid]).(due := s'.runs[rid].due)
  {
    hide First, Step, Commit, CommandOf, Valid, PcFits, AuditAfter, SeenAfter;
  }

  /** Matched steps keep the two systems in step. */
  lemma StepSimulated(code: Code, cfg: Config, restorable: bool, s: State, f: State, a: Action)
    requires SnapshotInv(code, s) && Simulates(code, s, f) && !Stutters(code, s, f, a)
    requires Enabled(code, s, a) && Permits(code, Exclusive(restorable), s, a)
    ensures Enabled(code, f, a) && Permits(code, Exclusive(restorable), f, a)
    ensures Simulates(code, Apply(code, cfg, s, a), Reloaded(Apply(code, cfg, f, a)))
  {
    ActionMatched(code, restorable, s, f, a);
    AuditMatched(code, s, f, a);
    SeenMatched(code, s, f, a);
    var s', f' := Apply(code, cfg, s, a), Reloaded(Apply(code, cfg, f, a));
    assert f.now == s.now;
    assert SameStores(s'.store, f'.store) by {
      ValidOf(code, s, a);
      CommitSame(s.store, f.store, s.now, cfg.lockDuration, TxOf(code, s, a));
    }
    assert f'.runs.Keys == s'.runs.Keys by {
      KeysMatched(code, cfg, s, f, a);
    }
    hide Stutters, SnapshotInv, Enabled, Permits, SameStores, SameRun, Commit, TxOf, AuditAfter, SeenAfter, RunsAfter;
    forall rid | rid in s'.runs
      ensures SameRun(code, s', f', rid)
    {
      RunsMatched(code, cfg, s, f, a, rid);
    }
  }

  lemma ValidOf(code: Code, s: State, a: Action)
    requires FamilyInv(code, s) && Enabled(code, s, a)
    ensures Valid(s.store, TxOf(code, s, a))
  {
    ActionIsProper(code, s, a);
  }

  lemma KeysMatched(code: Code, cfg: Config, s: State, f: State, a: Action)
    requires SnapshotInv(code, s) && Simulates(code, s, f) && Enabled(code, s, a) && Enabled(code, f, a) && !Stutters(code, s, f, a)
    ensures RunsAfter(code, cfg, f, a).Keys == RunsAfter(code, cfg, s, a).Keys
  {
    hide First, Step, Commit, CommandOf, SnapshotInv, Valid, PcFits, Stutters, SameRun, SameStores;
    assert f.runs.Keys == s.runs.Keys;
    hide Simulates;
    if a.Progress? {
      MoveMatched(code, s, f, a);
    }
  }

  /** What a step of a detour commits changes no row, and no log but for the marker. */
  lemma StutterStore(s: Store, t: Store, now: Time, lockDuration: Time, tx: Tx, id: Id, n: nat, c: Command)
    requires SameStores(s, t) && s.Has(id) && Waits(c) && First(s.logs[id], Settles(n, c)).Some?
    requires tx == NoTx || tx == WriteEvent(id, MarkerEvent(c)) || tx == MarkWaiting(id, Settles(n, c))
    ensures SameStores(Commit(s, now, lockDuration, tx), t)
    ensures forall x :: s.Log(x) <= Commit(s, now, lockDuration, tx).Log(x)
    ensures Reopens(s, tx) == multiset{}
  {
    hide First, SameButMarkers;
    if tx.WriteEvent? {
      SameWithout(s.logs[id], t.logs[id], MarkerEvent(c));
    }
  }

  lemma StutterMarks(s: State, tx: Tx, id: Id, n: nat, c: Command)
    requires Waits(c) && First(s.Log(id), Settles(n, c)).Some?
    requires tx == NoTx || tx == WriteEvent(id, MarkerEvent(c)) || tx == MarkWaiting(id, Settles(n, c))
    ensures AwaitedAfter(s, tx) == s.audit.awaited
  {
    hide First;
  }

  lemma StutterRuns(code: Code, cfg: Config, s: State, f: State, a: Action, rid: RunId)
    requires Enabled(code, s, a) && a.Progress? && Simulates(code, s, f) && rid in s.runs
    requires var r := s.runs[a.rid]; var next := MoveOf(code, s, r, a.choice).next;
      && (StartsDetour(code, s.Log(r.wf), r) || (r.pc.Marking? && f.runs[a.rid].pc.Deciding?))
      && next == Some(r.(pc := if r.pc.Deciding? then Marking else Reloading)) && Detour(code, s.Log(r.wf), next.value)
    requires forall x :: s.Log(x) <= Apply(code, cfg, s, a).Log(x)
    ensures rid in Apply(code, cfg, s, a).runs && SameRun(code, Apply(code, cfg, s, a), f, rid)
  {
    hide First, Step, Commit, FlowOf, Valid, PcFits, AuditAfter, SeenAfter, SameStores;
    var s', r := Apply(code, cfg, s, a), s.runs[rid];
    assert SameRun(code, s, f, rid) && rid in f.runs;
    hide Simulates;
    assert s.Log(r.wf) <= s'.Log(r.wf);
    if Waits(CommandOf(code, r)) && First(s.Log(r.wf), Settles(r.At(), CommandOf(code, r))).Some? {
      FirstIsStable(s.Log(r.wf), s'.Log(r.wf), Settles(r.At(), CommandOf(code, r)));
    }
  }

  /** On a detour only the real system moves. */
  lemma StepStutters(code: Code, cfg: Config, s: State, f: State, a: Action)
    requires SnapshotInv(code, s) && Simulates(code, s, f) && Enabled(code, s, a) && Stutters(code, s, f, a)
    ensures Simulates(code, Apply(code, cfg, s, a), f)
  {
    hide First, Step, Commit, FlowOf, Valid, PcFits, StoreInv, SameStores, Apply, OneRunEach;
    var r := s.runs[a.rid];
    assert SameRun(code, s, f, a.rid);
    SnapshotCurrentRun(code, s, a.rid);
    assert |r.obs| <= |s.Seen(r.wf)|;
    assert SameStores(s.store, f.store) && f.now == s.now && f.seen == s.seen && f.audit == s.audit && f.runs.Keys == s.runs.Keys;
    hide SnapshotInv, SameRun, Current, Enabled, Simulates;
    DetourMove(code, s, r, a.choice);
    StutterStore(s.store, f.store, s.now, cfg.lockDuration, TxOf(code, s, a), r.wf, r.At(), CommandOf(code, r));
    StutterMarks(s, TxOf(code, s, a), r.wf, r.At(), CommandOf(code, r));
    StutterApply(code, cfg, s, a);
    forall rid | rid in Apply(code, cfg, s, a).runs
      ensures SameRun(code, Apply(code, cfg, s, a), f, rid)
    {
      StutterRuns(code, cfg, s, f, a, rid);
    }
    StutterEnds(code, s, Apply(code, cfg, s, a), f);
  }

  lemma StutterEnds(code: Code, s: State, s': State, f: State)
    requires f.now == s'.now && f.seen == s'.seen && f.audit == s'.audit && SameStores(s'.store, f.store)
    requires f.runs.Keys == s'.runs.Keys && forall rid :: rid in s'.runs ==> SameRun(code, s', f, rid)
    ensures Simulates(code, s', f)
  {
    hide SameStores, SameRun;
  }

  lemma StutterApply(code: Code, cfg: Config, s: State, a: Action)
    requires Enabled(code, s, a) && a.Progress? && Reopens(s.store, TxOf(code, s, a)) == multiset{}
    requires AwaitedAfter(s, TxOf(code, s, a)) == s.audit.awaited
    requires var r := s.runs[a.rid];
      && |r.obs| <= |s.Seen(r.wf)| && (r.pc.Deciding? || r.pc.Marking?)
      && MoveOf(code, s, r, a.choice).next == Some(r.(pc := if r.pc.Deciding? then Marking else Reloading))
    ensures var s' := Apply(code, cfg, s, a);
      && s'.store == Commit(s.store, s.now, cfg.lockDuration, TxOf(code, s, a))
      && s'.now == s.now && s'.seen == s.seen && s'.audit == s.audit && s'.runs.Keys == s.runs.Keys
  {
    hide First, Step, Commit, FlowOf, Valid, PcFits;
  }

  // ----- Markers -----

  /** A run writes a marker only when it goes on to mark, and leaves the wait only with its event in the log. */
  lemma MarkerMove(code: Code, s: State, r: Run, choice: Choice)
    requires CanStep(code, r, choice) && MoveOf(code, s, r, choice).next.Some?
    ensures var m, c := MoveOf(code, s, r, choice), CommandOf(code, r); var r' := m.next.value;
      && (m.tx.WriteEvent? && IsMarker(m.tx.event) ==>
            r'.pc.Marking? && r' == r.(pc := Marking) && Waits(c) && m.tx.event == MarkerEvent(c))
      && (r.pc.Marking? || r.pc.Reloading? ==>
            (r' == r.(pc := Reloading) || First(s.Log(r.wf), Settles(r.At(), c)).Some?) && !m.tx.WriteEvent?)
      && (if r.pc.Claimed? then r'.hist == s.Log(r.wf) && m.tx == NoTx else r'.hist == r.hist && !r'.pc.Claimed?)
  {
    hide First, Count, ChildId, ToJsonSafe, FromJsonSafe, SerializeArguments, ObsOf;
  }

  /** The log grew by one event the run may write, or by events that are no markers. */
  lemma MarkersKnownLater(code: Code, log: Log, more: Log, r: Run)
    requires MarkersKnown(code, log, r) && log <= more
    requires forall p {:trigger more[p]} :: |log| <= p < |more| ==> !IsMarker(more[p])
    ensures MarkersKnown(code, more, r)
  {
    hide FlowOf;
    if !r.pc.Claimed? {
      forall p | |r.hist| <= p < |more| && IsMarker(more[p])
        ensures || First(more, AwaitedBy(more[p])).Some?
                || ((r.pc.Marking? || r.pc.Reloading?) && Waits(CommandOf(code, r)) && more[p] == MarkerEvent(CommandOf(code, r)))
      {
        assert p < |log| && more[p] == log[p];
        if First(log, AwaitedBy(log[p])).Some? {
          FirstIsStable(log, more, AwaitedBy(log[p]));
        }
      }
    }
  }

  lemma MarkersAfterMove(code: Code, s: State, r: Run, choice: Choice, more: Log)
    requires CanStep(code, r, choice) && MoveOf(code, s, r, choice).next.Some? && MarkersKnown(code, s.Log(r.wf), r)
    requires more == OwnLog(s.store, s.Log(r.wf), MoveOf(code, s, r, choice).tx)
    requires !r.pc.Claimed? ==> PcFits(r.pc, CommandOf(code, r))
    ensures MarkersKnown(code, more, MoveOf(code, s, r, choice).next.value)
  {
    MarkerMove(code, s, r, choice);
    var m := MoveOf(code, s, r, choice);
    var r', log, c := m.next.value, s.Log(r.wf), CommandOf(code, r);
    hide First, Step, FlowOf;
    if r.pc.Claimed? {
    } else if r.pc.Marking? || r.pc.Reloading? {
      MarkerInLog(log, c);
    } else if m.tx.WriteEvent? && IsMarker(m.tx.event) {
      MarkersKnownLater(code, log, log, r);
      KnownPlusOwn(code, log, r, m.tx.event);
    } else {
      MarkersKnownLater(code, log, more, r);
      WithoutWait(code, more, r, r');
    }
  }

  /** Away from a wait, every marker past the snapshot is settled, whatever the run does next. */
  lemma WithoutWait(code: Code, log: Log, r: Run, r': Run)
    requires MarkersKnown(code, log, r) && !r.pc.Claimed? && !r.pc.Marking? && !r.pc.Reloading? && r'.hist == r.hist
    ensures MarkersKnown(code, log, r')
  {
    hide First, FlowOf;
  }

  lemma KnownPlusOwn(code: Code, log: Log, r: Run, e: Event)
    requires MarkersKnown(code, log, r) && !r.pc.Claimed? && !r.pc.Marking? && !r.pc.Reloading?
    requires Waits(CommandOf(code, r)) && e == MarkerEvent(CommandOf(code, r))
    ensures MarkersKnown(code, log + [e], r.(pc := Marking))
  {
    hide FlowOf;
    var more, r' := log + [e], r.(pc := Marking);
    forall p | |r.hist| <= p < |more| && IsMarker(more[p])
      ensures First(more, AwaitedBy(more[p])).Some? || more[p] == MarkerEvent(CommandOf(code, r'))
    {
      if p < |log| {
        assert more[p] == log[p];
        FirstIsStable(log, more, AwaitedBy(log[p]));
      }
    }
  }

  lemma MarkersAfter(code: Code, cfg: Config, s: State, a: Action, rid: RunId)
    requires SnapshotInv(code, s) && Enabled(code, s, a) && rid in Apply(code, cfg, s, a).runs
    ensures var t := Apply(code, cfg, s, a); MarkersKnown(code, t.Log(t.runs[rid].wf), t.runs[rid])
  {
    hide First, Step, Commit, FlowOf, Valid, StoreInv, AuditAfter, SeenAfter, OwnLog, RunInv;
    var t := Apply(code, cfg, s, a);
    if rid in s.runs {
      var r := s.runs[rid];
      SnapshotCurrentRun(code, s, rid);
      assert OneRunEach(s) && FamilyInv(code, s) && RunOk(code, s.store, r);
      hide SnapshotInv, PcFits;
      if a.Progress? && a.rid == rid {
        MoveShape(code, s, r, a.choice);
        OwnLogIsCommitted(code, s, a, cfg.lockDuration);
        MarkersAfterMove(code, s, r, a.choice, t.Log(r.wf));
      } else {
        assert !Moves(s, a, r.wf);
        Wakes.OthersWriteFromOutside(code, cfg, s, a, r.wf);
        MarkersKnownLater(code, s.Log(r.wf), t.Log(r.wf), r);
      }
    }
  }

  lemma ApplyKeepsSnapshot(code: Code, cfg: Config, restorable: bool, s: State, a: Action)
    requires SnapshotInv(code, s) && Enabled(code, s, a) && Permits(code, Exclusive(restorable), s, a)
    ensures SnapshotInv(code, Apply(code, cfg, s, a))
  {
    ApplyKeepsRecord(code, cfg, restorable, s, a);
    hide Apply, Permits, Enabled, RecordInv, MarkersKnown;
    var t := Apply(code, cfg, s, a);
    forall rid | rid in t.runs
      ensures MarkersKnown(code, t.Log(t.runs[rid].wf), t.runs[rid])
    {
      MarkersAfter(code, cfg, s, a, rid);
    }
  }

  // ----- Main result -----

  lemma {:induction false} SimulationHolds(code: Code, cfg: Config, restorable: bool, s: State, f: State, acts: seq<Action>)
    returns (matched: seq<Action>)
    requires SnapshotInv(code, s) && Simulates(code, s, f) && Legal(code, cfg, Exclusive(restorable), s, acts)
    ensures ReloadingLegal(code, cfg, restorable, f, matched)
    ensures SnapshotInv(code, Final(code, cfg, Exclusive(restorable), s, acts))
    ensures Simulates(code, Final(code, cfg, Exclusive(restorable), s, acts), ReloadingFinal(code, cfg, restorable, f, matched))
    decreases |acts|
  {
    hide Apply, Enabled, Permits, SnapshotInv, Simulates, Stutters, Reloaded;
    if acts == [] {
      matched := [];
    } else {
      var a := acts[0];
      var s' := Apply(code, cfg, s, a);
      ApplyKeepsSnapshot(code, cfg, restorable, s, a);
      if Stutters(code, s, f, a) {
        StepStutters(code, cfg, s, f, a);
        matched := SimulationHolds(code, cfg, restorable, s', f, acts[1..]);
      } else {
        StepSimulated(code, cfg, restorable, s, f, a);
        var rest := SimulationHolds(code, cfg, restorable, s', Reloaded(Apply(code, cfg, f, a)), acts[1..]);
        matched := [a] + rest;
        assert matched[1..] == rest;
      }
    }
  }

  /** Nothing but markers in logs, and what runs have in memory besides their results, tells the two apart. */
  ghost predicate SameButSnapshots(s: State, f: State) {
    && f.now == s.now && f.seen == s.seen && f.audit == s.audit && f.store.rows == s.store.rows
    && f.store.logs.Keys == s.store.logs.Keys && (forall id :: id in s.store.logs ==> Erase(f.Log(id)) == Erase(s.Log(id)))
    && f.runs.Keys == s.runs.Keys
    && (forall rid :: rid in s.runs ==> f.runs[rid].wf == s.runs[rid].wf && f.runs[rid].obs == s.runs[rid].obs)
  }

  ghost predicate ReloadingReachable(code: Code, cfg: Config, restorable: bool, f: State) {
    exists now, acts :: ReloadingLegal(code, cfg, restorable, Init(now), acts) && ReloadingFinal(code, cfg, restorable, Init(now), acts) == f
  }

  /**
   * Every state of the system with one snapshot per run is matched by one of the system in which runs
   * reload their history before each step: clock, rows, traces and counters are the same, each run has
   * been given the same results, and the logs are the same up to waiting markers.
   */
  lemma OneSnapshotIsAsGood(code: Code, cfg: Config, restorable: bool, s: State)
    requires Reachable(code, cfg, Exclusive(restorable), s)
    ensures exists f :: ReloadingReachable(code, cfg, restorable, f) && SameButSnapshots(s, f)
  {
    hide Leads, Final, ReloadingFinal, Legal, ReloadingLegal, SnapshotInv, Apply;
    var now, acts := ReachableBy(code, cfg, Exclusive(restorable), s);
    StartSimulates(code, now);
    var matched := SimulationHolds(code, cfg, restorable, Init(now), Init(now), acts);
    var f := ReloadingFinal(code, cfg, restorable, Init(now), matched);
    assert ReloadingReachable(code, cfg, restorable, f);
    hide Reachable, ReloadingReachable;
    SameOwners(code, s, f);
    forall id | id in s.store.logs
      ensures Erase(f.Log(id)) == Erase(s.Log(id))
    {
      assert SameButMarkers(s.store.logs[id], f.store.logs[id]);
    }
  }

  lemma StartSimulates(code: Code, now: Time)
    ensures SnapshotInv(code, Init(now)) && Simulates(code, Init(now), Init(now))
  {
    InitRecord(code, now);
  }
}
