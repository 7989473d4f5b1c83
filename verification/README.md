# Temporal-Light in Dafny

Temporal-Light is a durable workflow engine. Its whole durable state is one mutable row per workflow
and an append-only log of events; a run of a workflow is rebuilt by replaying the log and then goes
forward. This project models the engine's protocol and programs in Dafny 4.11 and proves what they
promise together: that crashing and re-running on any worker is invisible to the workflow, that no
wakeup is lost, that nothing gets stuck, and that what is stored comes back as it was.

`dafny verify dfyconfig.toml` verifies everything.

## How the model is laid out

**Values.** `Text`, `Ids` and `Serialization` hold decimal text, workflow ids and the two payload
conversions; `Restoration` says what they make of any input, position by position, and `RoundTrip` which values
survive being stored. `Calls` says when the stored arguments of two calls are the same.

**The protocol as a state machine.** `Events` has the log and its first-match scans. `Transactions` has
the two tables and what each query function commits (`Commit`). `Workflows` takes workflow code as any
function from the results so far to the next command. `Machine` is one run, cut at its database calls
(`Step`), so that a crash or somebody else's transaction can fall exactly between two steps. `Cluster` is
the whole system: the store, one clock, and all runs in progress on all workers. A behaviour is any list of
legal actions: start, signal, tick, claim, heartbeat, crash, or the next step of any run. `Reachable` and
`Leads` say which states behaviours reach, and which lead to which; the main results are about these.

Three schedules say what a behaviour may rely on. `AnySchedule` is every interleaving. `Exclusive(r)` has
a workflow claimed only while no run of it is in progress. `Timely(r)` bounds only the clock: no tick
overtakes the next heartbeat of a live run. With `r` set, activity results are also required to be ones
that their return annotation restores; `Outcomes.TypedActivitiesReplay` derives that from typing. Below,
"exclusive" means that runs of one workflow do not overlap, "replayable" that besides results are restorable;
a row that says neither holds under every schedule.

**Results over behaviours.** Under every schedule: `Family` and `Joins` (children, completion signals, what
waits return), `Requests` (starts and signals arrive as they were sent), `Progress` (runs release their rows, nothing gets stuck), `Terminals` (when a finished row is set
running again). `Lease`: when leases give exclusion. Of exclusive runs: `Recording` (each step recorded once),
`Retries` (how attempts are counted), `Snapshot` (loading history once is as good as loading it before every
step). Of replayable ones: `Replay` and `Transparency` (the invariant behind crash-transparent replay),
`Outcomes`, `Resting` and `Wakes` (what follows from it). `Redeploy`: a workflow left in the middle of an
activity meets changed code. `Scenarios`: behaviours that show which properties fail, and that a bound is met.

**Statements under READ COMMITTED.** `ReadCommitted` takes every transaction apart into its SQL statements,
with row locks held to the end, inserts visible at commit, and a fresh snapshot per statement (sections
13.2.1 and 13.3.2 of the PostgreSQL 16 documentation). Locks have the modes FOR UPDATE, FOR NO KEY UPDATE and
FOR KEY SHARE, the last taken by the foreign-key checks of `events` and of `workflows.parent_id`. It proves
that any interleaving of statements leaves the store that the atomic transactions of `Transactions` leave in
commit order, that no wakeup is lost and that no deadlock arises, and gives the losing interleaving for the
single-UPDATE mark.

**The programs.** `Queries.Database` is the query layer over the two tables, each method tied to the
transaction it commits. `Contexts.WorkflowContext`, `Runner.System` and `Scheduling.Scheduler` are the context,
the runner with its five primitives, and the claim loop; `Steps` has what one call does to the state machine.
`Runner.System` carries the list of actions its calls amount to, and `Valid()` says that this list is a legal
behaviour under the system's schedule, leading to a model state whose store is what the tables contain. Other
parties act before every call, as an arbitrary script directs. Every primitive is proved `Onward`: from the
state before the call a behaviour of the model leads to the state after it, the store has only grown, and
what was added to the list is this run's own steps and other parties' actions. `Runner.System.TablesAreReachable`
turns results over behaviours into results over the tables, under the schedule the system was made with:
`Runner.System.TablesAreConserved` draws results that need no assumption, `Runner.System.TablesReplay` draws those
that need exclusion and restorable results, for a system with the `Exclusive(true)` schedule or with
`Timely(true)` and safe lease timing. `Stream.EventStream` is the tail loop of the event stream.

Two histories exist for theorems only; no code reads them: `State.seen`, the longest result sequence any run of
a workflow has been given, and `State.audit`, which counts bodies started, bodies lost to crashes, and ways
past an exhausted activity, and keeps what each row was marked as waiting for since it was last woken or ended.

## Where the documentation and the code differ

The code is followed. A waiting workflow has `status = 'waiting'`; `run_at` is not set to the year 9999.
Divergence is looked for only at a step that is scheduled and not completed. There is no unique constraint
on events, so that a step is recorded once is a result about runs, not about the schema. The branch of
`sleep` marked as not occurring does occur, since a signal resets `run_at`.

## What turned out false

- A terminal status is not final: a late child or a signal that passed the API's status check wakes the row
  (`temporal_light/db/queries.py:443-450` and `516-523`), and where runs of one workflow overlap, the mark of the
  other run takes it to WAITING (`temporal_light/db/queries.py:246-256`). Under every schedule a row leaves a
  terminal status exactly in these three ways (`Terminals.TerminalRowsReopenExactly`), and exclusive runs exactly
  in the first two (`Terminals.TerminalRowsReopenExactlyByWakes`). `Scenarios.FinishedWorkflowReopens` gives a
  behaviour with two terminal events in one log. Of exclusive runs, a log holds one terminal event more than its
  row was reopened (`Terminals.EndingsAreConserved`), so at most one if nothing hits it
  (`Terminals.EndsOnceUnlessHit`); and the re-run of a completed, replayable workflow is harmless
  (`Outcomes.FinishedReRunIsHarmless`).
- A dict with bool keys comes back unchanged exactly when `False` is not a key
  (`RoundTrip.BoolKeyedDictRestoresExactlyWithoutFalse`), and without an annotation exactly plain values do
  (`RoundTrip.AnyRestoresExactlyPlain`).
- A union does not always give back its member: a list or tuple comes back exactly when the first array member
  in declaration order has its constructor (`RoundTrip.UnionRestoresExactlyTheFirstArray`); a concrete case is
  `RoundTrip.ListBeforeTupleLosesTheTuple`.
- Replay is not transparent for results their annotations do not restore: whatever the code, there is a
  behaviour in which one run is given the value and the next, after a crash, what the annotation makes of the
  stored one (`Scenarios.ReplayGivesTheRestoredValue`). For an unannotated activity these differ for every
  value that is not plain (`Scenarios.UnannotatedReplayDiffers`); a tuple becomes a list
  (`Scenarios.TupleReplaysAsAList`). Code that goes on to call something else for the restored value can then fail
  with a divergence although it has not changed (`Scenarios.UnchangedCodeDiverges`); replayable code cannot
  (`Outcomes.NoFalseDivergence`).
- Exclusion of overlapping runs is not enforced anywhere; it holds exactly if H + D <= L
  (`Lease.LeaseBoundIsExact`).
- A step may fail more often than its retry limit allows. `Retries.FailuresAreBounded` and
  `Retries.FailuresKeepTheirLimit` bound it by the limit plus one plus the reopenings, `Scenarios.RetryBoundIsTight`
  meets that bound for every number of reopenings, and `Retries.LimitHoldsUnlessReopened` has the limit hold when
  there are none.

## Model

| member | source | states |
|---|---|---|
| Text.ParseIntText | temporal_light/serialization.py:119-124 | The text of any integer, negative ones included, reads back as that integer. |
| Text.IntTextIsCanonical | temporal_light/serialization.py:27-28 | The text of an integer is a minus exactly if it is negative, then digits without a leading zero; no shorter text reads as it. |
| Text.DigitTexts | temporal_light/serialization.py:27-28 | The texts of 0 to 9 are "0" to "9". |
| Text.ParseIntAccepts | temporal_light/serialization.py:119-124 | Reading a key as an int raises exactly unless it is digits after at most one sign. |
| Text.ParseIntSigns | temporal_light/serialization.py:119-124 | A plus, a minus and a leading zero before digits are read as Python reads them. |
| Ids.ChildIdText | temporal_light/children.py:31 | A child id is the parent's id, a colon and the step in decimal. |
| Ids.ChildIdInjective | temporal_light/children.py:26-32 | No two spawn sites, of any parents at any depth, derive the same child id. |
| Ids.ChildIdIsNotRoot | temporal_light/children.py:26-32 | A derived child id never equals an id without a colon, as the API chooses them. |
| Serialization.RestoreUnion | temporal_light/serialization.py:77-95 | The loop keeps null if the union has None; else it returns what the first member makes of the value that restores it and has it as an instance, else raises what the last raising member raised, else returns the raw value; and that is what restoration at the union is. |
| Restoration.UnionsAreSearched | temporal_light/serialization.py:77-95 | The same of restoration at a union, wherever it is nested. |
| Restoration.LastEntryIsStored | temporal_light/serialization.py:27-28 | Where the texts of dict keys collide, one field is stored, with the value of the last such entry; nothing else is. |
| Restoration.KeyTexts | temporal_light/serialization.py:27-28 | The keys True, False and None are stored as "True", "False" and "None", strings as they are, ints in decimal. |
| Restoration.ArraysRestorePointwise | temporal_light/serialization.py:54-74 | A list restores item by item and a fixed tuple part by part, surplus items unchanged; the length is kept, and the first item that raises decides. |
| Restoration.DictHoldsLastFields | temporal_light/serialization.py:60-67 | A dict restores exactly if all its keys and values do, and then has under each restored key the value of the last field with that key; else the first field that does not restore decides what is raised, its key before its value. |
| Restoration.FieldsRestorePointwise | temporal_light/serialization.py:98-102 | The fields of an object restore one by one under their names, each at the annotation declared for its name; the first that raises decides. |
| Restoration.ConstructsExactly | temporal_light/serialization.py:98-103 | A dataclass is constructed exactly if every field given is declared and every declared one is given or has a default; each then has the value given, or else its default. |
| Restoration.OtherShapesAreLeftAlone | temporal_light/serialization.py:33-74 | A list or dict under an annotation of another shape is handed back as it is. |
| RoundTrip.TypedRoundTrip | temporal_light/serialization.py:13-74 | Every value well typed at its annotation comes back unchanged from storing and restoring, at any nesting of lists, fixed and variadic tuples, str- and int-keyed dicts, dataclasses and separable unions. |
| RoundTrip.AnyRestoresExactlyPlain | temporal_light/serialization.py:33-36 | Without an annotation exactly scalars, lists and string-keyed dicts of such values come back unchanged. |
| RoundTrip.BoolKeyedDictRestoresExactlyWithoutFalse | temporal_light/serialization.py:119-124 | A bool-keyed dict comes back unchanged if and only if False is not among its keys. |
| RoundTrip.ListBeforeTupleLosesTheTuple | temporal_light/serialization.py:77-95 | Under `list[int] \| tuple[int, ...]` a stored tuple comes back as a list: declaration order matters. |
| RoundTrip.UnionRestoresExactlyTheFirstArray | temporal_light/serialization.py:77-95 | Under any union whose first list or tuple member restores the items, a list or tuple comes back as it was if and only if that member has its constructor. |
| RoundTrip.ScalarsAreNeverRestored | temporal_light/serialization.py:33-95 | A JSON scalar is handed back unchanged at every annotation, unions included. |
| RoundTrip.SearchReachesMember | temporal_light/serialization.py:77-95 | With separated members the search rejects every earlier member and stops at the one the value was stored under. |
| RoundTrip.OtherClassRejects | temporal_light/serialization.py:98-103 | Constructing a dataclass from another's fields raises, if one field is undeclared or a required one is missing. |
| RoundTrip.DataRestores | temporal_light/serialization.py:98-103 | A dataclass whose fields restore restores, fields bound by name. |
| RoundTrip.DictRestores | temporal_light/serialization.py:60-67 | A dict whose keys and values restore restores with its order. |
| RoundTrip.PartsRestore | temporal_light/serialization.py:106-116 | A fixed tuple restores part by part, each at its own annotation. |
| Events.FirstIsStable | temporal_light/worker/context.py:36-86 | Once a scan finds an event, no growth of the log changes what it finds. |
| Contexts.FindIn | temporal_light/worker/context.py:36-40 | The search loop returns the first matching event of the log, none before it matching, or nothing if none does. |
| Contexts.WorkflowContext.CountFailedEvents | temporal_light/worker/context.py:88-91 | The loop counts exactly the FAILED events of the step in the loaded history. |
| Contexts.WorkflowContext.NextStepIndex | temporal_light/worker/context.py:31-34 | Each call hands out the next index, once. |
| Transactions.CommitGrows | temporal_light/db/queries.py:43-532 | No query function removes a row or an event, or changes a row's name or parent. |
| Queries.Database.CreateWorkflow | temporal_light/db/queries.py:43-69 | Leaves the tables as the atomic transaction does: a RUNNING row due now and its STARTED event. |
| Queries.Database.CreateChildWorkflow | temporal_light/db/queries.py:72-137 | Creates row, STARTED and CHILD_STARTED together, or nothing and returns False if the id is taken. |
| Queries.Database.OldestClaimable | temporal_light/db/queries.py:159-186 | Finds an eligible row of least run_at, and finds none only if no row is eligible. |
| Queries.Database.ClaimNextWorkflow | temporal_light/db/queries.py:151-198 | Locks the oldest eligible row for the lock duration, or changes nothing if none is eligible. |
| Queries.Database.MarkWorkflowWaiting | temporal_light/db/queries.py:213-298 | Marks and unlocks the row if and only if the awaited event is not in the log, and says which. |
| Queries.Database.Exists | temporal_light/db/queries.py:227-243 | The existence check over the events table answers for this workflow's log. |
| Queries.Database.UpdateWorkflowRunAt | temporal_light/db/queries.py:301-317 | Moves run_at and releases the lock in one step. |
| Queries.Database.ExtendWorkflowLock | temporal_light/db/queries.py:354-365 | Pushes locked_until to a full lock duration from now, whoever holds the lock. |
| Queries.Database.LoadEventHistory | temporal_light/db/queries.py:373-380 | Returns the workflow's whole log in id order. |
| Queries.Database.LoadEventsAfter | temporal_light/db/queries.py:383-391 | Returns exactly the workflow's records past the cursor, in id order. |
| Queries.Database.WriteEvent | temporal_light/db/queries.py:394-418 | Appends one event at the end of the workflow's log and changes no row. |
| Queries.Database.WriteSignalAndWakeWorkflow | temporal_light/db/queries.py:421-454 | Appends the signal and makes the row RUNNING and due now, whatever its status was. |
| Queries.Database.WriteTerminalWorkflowEvent | temporal_light/db/queries.py:462-532 | Ends the workflow, unlocks its row, and delivers the outcome to and wakes the parent, all at once. |
| ReadCommitted.SerialIsAtomic | temporal_light/db/queries.py:43-532 | The statements of each query function, executed without interruption, amount to its atomic transaction. |
| ReadCommitted.StatementsAreAtomic | temporal_light/db/queries.py:43-532 | Any interleaving of statements of any number of transactions, with waits and rollbacks, leaves the store that the committed ones leave when executed atomically in commit order. |
| ReadCommitted.AdmissibleAtEnd | temporal_light/db/queries.py:159-186 | A claim that commits is of a row that is still eligible then: two workers never claim one row. |
| ReadCommitted.RefusedExactlyIfFound | temporal_light/db/queries.py:213-298 | A mark is refused if and only if the awaited event is committed when the mark commits, not only when it looked. |
| ReadCommitted.NoLostWakeup | temporal_light/db/queries.py:220-256 | Over every interleaving a WAITING row was marked since it was last woken, and no event it was marked for is in its log. |
| ReadCommitted.SingleUpdateLosesWakeup | temporal_light/db/queries.py:220-225 | The mark as one UPDATE with NOT EXISTS loses the wakeup: from any row without the signal an interleaving leaves it WAITING with the signal in its log. |
| ReadCommitted.NoDeadlock | temporal_light/db/queries.py:462-532 | Whenever transactions are open, one of them is not waiting for a row lock, foreign-key locks included. |
| Calls.ComparedByArguments | temporal_light/worker/executor.py:255-263 | Two calls have the same stored arguments exactly if they pass the same positional arguments in order and the same keyword arguments in any order. |
| Calls.ChangedAmountIsAnotherCall | temporal_light/worker/executor.py:82-90 | A call that passes another int under the same keyword is another call. |
| Calls.PlainCallsAreRecorded | temporal_light/worker/executor.py:255-263 | What is stored of a call with plain arguments is its arguments: the list under `args`, the keywords under `kwargs`. |
| Calls.RigidIsCompared | temporal_light/worker/executor.py:82-90 | Payloads of nulls, ints, strings and lists are the same exactly if they are equal. |
| Calls.NumbersAreCompared | temporal_light/worker/executor.py:82-90 | Bools, ints and floats are compared by value, and with nothing else. |
| Calls.ObjectsAreCompared | temporal_light/worker/executor.py:82-90 | Dicts of such values are the same exactly if they have the same fields, in any order. |
| Workflows.LookupIsWhatTheLogTells | temporal_light/worker/context.py:36-86 | A step is settled by the first event of its kind, step, signal type or child, none before it fitting, and with what that event holds: the restored result or its error, the payload, the child id, the child's result or its failure. |
| Workflows.OneTrace | temporal_light/worker/executor.py:57-67 | A log determines one trace: of two result sequences it explains, the shorter is a prefix of the longer. |
| Workflows.ExplainedIsUninterrupted | temporal_light/worker/runner.py:36-71 | A result sequence the log explains is that of an execution without the engine, in any world that gives each step its recorded outcome. |
| Family.CommitKeepsStoreInv | temporal_light/db/queries.py:43-532 | Every transaction keeps: a STARTED event first, one CHILD_STARTED per child row, one completion signal per terminal event, terminal status backed by a terminal event. |
| Family.MovesAreProper | temporal_light/worker/runner.py:48-97 | Every database call a run can make refers to existing rows, and a run reports to the parent recorded in its row. |
| Family.TakenMeansSpawnedHere | temporal_light/children.py:17-40 | If the id of a spawn site is taken, this site of this parent has spawned it, so False from the insert means this very spawn. |
| Family.OneChildPerSpawnSite | temporal_light/db/queries.py:85-137 | In every interleaving, child rows and CHILD_STARTED events correspond one to one, with matching id, name and input. |
| Family.CompletionIsConserved | temporal_light/db/queries.py:462-532 | In every interleaving, a parent's log holds one completion signal per terminal event of the child, the first carrying its first outcome, and none for others' children. |
| Joins.WaitsReturnTheFirst | temporal_light/children.py:80-146 | Under every schedule a run past a wait was given the payload of the first signal of the type; past a join, the result in the first completion of the child, or its failure as an error; and past a join of its own child, what the child's first terminal event says. |
| Requests.SignalsAreDelivered | temporal_light/db/queries.py:421-454 | Along every behaviour the signals in a workflow's log are those sent to it, in order, with their types and payloads. |
| Requests.StartsAreHonoured | temporal_light/db/queries.py:43-69 | Along every behaviour a started workflow keeps the name and input it was started with, and executes the code registered under that name, or fails as unregistered. |
| Requests.SignalWakes | temporal_light/db/queries.py:443-450 | A signal makes its workflow RUNNING and due now, keeping a lock that is held. |
| Requests.ClaimTakesTheLock | temporal_light/db/queries.py:159-186 | A claim puts the worker's name on the row for the lock duration and changes no log. |
| Lease.LeaseExclusion | temporal_light/worker/scheduler.py:76-106 | With H + D <= L no live run's lock expires and no workflow has two runs, in every reachable state, though heartbeats check no owner. |
| Lease.SlowHeartbeatsAdmitTwoRuns | temporal_light/db/queries.py:159-186 | With L < H + D a legal behaviour has two runs of one workflow. |
| Lease.LeaseBoundIsExact | temporal_light/db/queries.py:354-365 | The timing excludes overlapping runs from every behaviour if and only if H + D <= L. |
| Replay.SnapshotAgrees | temporal_light/worker/runner.py:36-68 | About the step a run is at, its snapshot and the current log agree on every kind of event the run has not just written. |
| Replay.ScheduledMatches | temporal_light/worker/executor.py:72-90 | A SCHEDULED event found after a crash carries the name and arguments this code calls with. |
| Replay.CompleteStep | temporal_light/worker/executor.py:130-145 | Writing COMPLETED keeps one per step, and makes the log replay what the forward run was given, if the result is restorable. |
| Replay.ParkStep | temporal_light/sleep.py:44-58 | SLEEP is written once per step, its wake-up time counted from this first encounter. |
| Transparency.ApplyKeepsReplay | temporal_light/worker/runner.py:34-99 | Replayable: every action of anybody keeps all traces explained and all runs on their trace, and never shortens a trace. |
| Outcomes.CrashTransparency | temporal_light/worker/executor.py:57-145 | Replayable: over any behaviour with claims anywhere and crashes at any point, logs and traces only extend, the log admits no other trace, and every run has been given a prefix of it. |
| Outcomes.CompletionIsUninterrupted | temporal_light/worker/runner.py:70-97 | Replayable: the result a workflow reports is the one its code returns when executed once without the engine, with the recorded outcomes. |
| Outcomes.CompletionUnderLeases | temporal_light/worker/scheduler.py:76-106 | The same with safe lease timing in place of exclusion: nobody has to promise that runs do not overlap. |
| Outcomes.FinishedReRunIsHarmless | temporal_light/db/queries.py:516-523 | Replayable: a woken COMPLETED workflow starts no body and spawns no child; it can only report the same result again, to the same parent. |
| Outcomes.SleepServedInFull | temporal_light/sleep.py:28-58 | Replayable: a run is past a sleep of d only at a time at least d after the one SLEEP event of that step was written, and so at least d after any earlier state whose log has no such event, whatever woke or crashed in between. |
| Recording.StepsAreRecordedOnce | temporal_light/worker/executor.py:60-100 | Exclusive, whether or not results are restorable: at most one SCHEDULED, COMPLETED, SLEEP and CHILD_STARTED event per step, under any crashes, wakes and re-runs. |
| Recording.WritesWhatIsMissing | temporal_light/worker/runner.py:36-68 | A run whose snapshot is on record writes a SCHEDULED, COMPLETED or SLEEP event only where the current log has none for the step. |
| Outcomes.NoFalseDivergence | temporal_light/worker/executor.py:72-90 | Replayable: under unchanged code an activity step never ends a run with a divergence. |
| Redeploy.ChangedStepIsDetected | temporal_light/worker/executor.py:72-90 | From any replayable state of the old code with no run of the workflow in progress: where a step is scheduled and not completed and the new code calls something else there, then over every behaviour of the new code, under any schedule, no body of the workflow starts at any step, its log gets only outside events and reports of this divergence, its runs can always go on, and one that ends fails the workflow with it. |
| Redeploy.DivergesExactlyIfChanged | temporal_light/worker/executor.py:72-90 | From any such state, over every behaviour of the new code, a run that comes to that step holds the recorded trace and ends there with the divergence if and only if the activity or its arguments have changed; else it goes on without a write. |
| Redeploy.ChangedIsDiffering | temporal_light/worker/executor.py:82-90 | What counts as changed there is the activity or its arguments, positional in order and keywords in any. |
| Redeploy.SameCommandsStillReplay | temporal_light/worker/executor.py:60-67 | Code that asks for the same commands up to that step and restores results alike replays the recorded trace. |
| Scenarios.ReplayGivesTheRestoredValue | temporal_light/worker/executor.py:60-145 | Whatever the code, the value and the annotation, a behaviour exists in which one run is given the body's value and, after a crash, the next run what the annotation makes of the stored one. |
| Scenarios.UnannotatedReplayDiffers | temporal_light/worker/executor.py:64-67 | So for an unannotated activity, for every value that is not plain JSON, two runs of one workflow are given different results at one step. |
| Scenarios.TupleReplaysAsAList | temporal_light/worker/executor.py:64-67 | In particular a returned tuple is a list for the next run. |
| Scenarios.UnchangedCodeDiverges | temporal_light/worker/executor.py:72-90 | Where code calls one thing for the value and another for the restored value, a behaviour exists in which it fails with a divergence without having changed. |
| Outcomes.TypedActivitiesReplay | temporal_light/worker/executor.py:64-67 | If every body returns a value of its annotated, separable type, the behaviour is one the replay theorems apply to. |
| Retries.AttemptsInOrder | temporal_light/worker/executor.py:102-103 | Every attempt number below the number of failures occurs among the FAILED events of the step. |
| Retries.TotalIsFinal | temporal_light/worker/executor.py:130-144 | COMPLETED counts every FAILED event the step will ever have, plus one. |
| Retries.RetriesAreAccounted | temporal_light/worker/executor.py:214-252 | Exclusive, whether or not results are restorable: failures numbered in order, attempts_total = k + 1, and bodies started = outcomes + lost + in flight. |
| Retries.FailuresAreBounded | temporal_light/worker/executor.py:214-252 | Exclusive, whether or not results are restorable: a step fails at most once more than any limit its code gives there, plus once per reopening. |
| Retries.FailuresKeepTheirLimit | temporal_light/worker/executor.py:214-252 | Replayable: that limit is the one of the call the recorded trace makes at the step. |
| Retries.LimitHoldsUnlessReopened | temporal_light/worker/executor.py:214-252 | Replayable: a workflow never set running again past a failed step fails at most max_retries + 1 times at every activity. |
| Scenarios.RetryBoundIsTight | temporal_light/worker/executor.py:214-252 | For every n a behaviour reaches max_retries + 1 + n failures of one step with n reopenings, by crashes between the FAILED event and its handling. |
| Scenarios.FinishedWorkflowReopens | temporal_light/db/queries.py:443-450 | A behaviour in which a signal sets a COMPLETED workflow running again, and one whose log has two terminal events. |
| Terminals.TerminalRowsReopenExactly | temporal_light/db/queries.py:246-256 | Under every schedule an action takes a row out of a terminal status if and only if it is a signal to it, the end of a run of its child, or a mark of it whose awaited event is not in its log. |
| Terminals.TerminalRowsReopenExactlyByWakes | temporal_light/db/queries.py:516-523 | Exclusive: if and only if it is a signal to it or the end of a run of its child. |
| Terminals.EndingsAreConserved | temporal_light/db/queries.py:443-450 | Exclusive: along every behaviour a log holds as many terminal events as its finished row was reopened, and one more while the row is finished. |
| Terminals.EndsOnceUnlessHit | temporal_light/db/queries.py:462-532 | Exclusive: along every behaviour in which nothing wakes it once finished, a workflow's log holds one terminal event if it is finished and none otherwise. |
| Progress.RunsEndReleased | temporal_light/signals.py:37-48 | Under any schedule a run that ends has cleared its lock and left its row waiting, rescheduled or terminal; the suspension with the lock still held is unreachable. |
| Progress.AwaitedChildIsAlive | temporal_light/children.py:91-118 | A row marked as waiting for a child waits for its own, and that child is not terminal and has delivered nothing. |
| Progress.JoinsAreAlive | temporal_light/children.py:91-118 | Under every schedule a workflow WAITING on a child it was marked for waits for its own, unfinished child, none of whose completions is in its log. |
| Progress.ChainEnds | temporal_light/children.py:91-118 | From every unfinished workflow, following joins downwards ends at an unfinished workflow that waits for no child and goes on otherwise. |
| Progress.ChainIsBounded | temporal_light/children.py:91-118 | No chain of joins is longer than there are workflows, so there is no waiting in a circle. |
| Progress.NothingGetsStuck | temporal_light/db/queries.py:227-256 | Under every schedule, overlapping runs included, an unfinished workflow is claimable, held by an unexpired lock, due later, or WAITING with nothing in its log of all it was marked for since it was last woken, a joined child being unfinished; joins lead from it to a workflow that goes on and waits for no child; and every chain of joins is bounded. |
| Progress.MarkedForItsCommand | temporal_light/signals.py:28-48 | Replayable: what a WAITING row was marked for is the wait its code stands at after the recorded trace, and nothing else. |
| Resting.IdleRowsAreAtRest | temporal_light/worker/runner.py:70-99 | Replayable: a workflow with no run in progress has ended, at a return, a raise or an activity; or waits unlocked for an event that is not there; or is RUNNING and due now, or at the end of its backoff or recorded sleep. |
| Resting.OnlyCrashesLeaveLocks | temporal_light/worker/scheduler.py:76-106 | Exclusive: an action leaves a workflow locked and with no run in progress only if it was so before, or the action is the crash of its run. |
| Wakes.SuspendedStep | temporal_light/sleep.py:30-42 | Replayable: a step of a run of a workflow suspended at a recorded sleep or wait writes nothing, and if it ends the run the row is asleep again. |
| Wakes.SpuriousWakesStutter | temporal_light/children.py:95-118 | Replayable: as long as a recorded suspension is not over, any number of wakes, claims, crashes and re-runs leave only outside signals in the log and the trace as it was, and whenever no run is in progress the row is WAITING and unlocked, or due at the recorded wake-up time, or woken and due, a lock in the way having an expiry. |
| Wakes.IdleFrontierIsSuspended | temporal_light/sleep.py:30-42 | Replayable: such a suspension is any moment at which the workflow has no run and its frontier is recorded and open. |
| Snapshot.SameMove | temporal_light/worker/executor.py:57-145 | A run that reads the same about its step in its old snapshot and in the current log makes the same move with either. |
| Snapshot.StepSimulated | temporal_light/worker/runner.py:36-68 | Exclusive: every other action is matched by the same action of the reloading system, keeping rows, traces and runs equal and logs equal up to waiting markers. |
| Snapshot.StepStutters | temporal_light/signals.py:28-46 | Exclusive: a wait for an event the snapshot misses makes a detour through a needless marker and a refused mark that changes nothing else. |
| Snapshot.OneSnapshotIsAsGood | temporal_light/worker/runner.py:36-68 | Exclusive, whether or not results are restorable: every behaviour with one snapshot per run is matched by one that reloads before every step: same clock, rows, traces and results, same logs up to waiting markers. |
| Stream.ThroughTerminalIsExact | temporal_light/api/sse.py:62-84 | What is yielded is a prefix of the records in id order, ended by the first terminal one and otherwise all of them. |
| Stream.PastIsTheRest | temporal_light/db/queries.py:383-391 | Reading past the last yielded id gives exactly what has not been yielded. |
| Stream.EventStream.YieldAll | temporal_light/api/sse.py:64-68 | The loop yields the given events up to the first WORKFLOW_COMPLETED or WORKFLOW_FAILED, remembers the last id, and is open if and only if there was none. |
| Stream.EventStream.Resume | temporal_light/api/sse.py:73-84 | After any notification, late, repeated or spurious, the stream has yielded the log as it is now, all of it if it holds no WORKFLOW_COMPLETED or WORKFLOW_FAILED event and else up to the first one, in which case and only then it has ended; so it has ended if the workflow's row is terminal. |
| Stream.Subscribers.OnNotify | temporal_light/api/sse.py:40-49 | One more notification in every queue of the workflow and in no other. |
| Stream.Subscribers.Unregister | temporal_light/api/sse.py:85-92 | Removes exactly the queue of this stream, and the workflow's entry with its last queue. |
| Runner.System.ExecuteActivity | temporal_light/worker/executor.py:42-145 | Hands back the restored recorded result and writes nothing if there is one; raises a divergence if and only if the history has another call scheduled and no result; otherwise leaves SCHEDULED in the log and the body's result as its last event, or the failure dealt with. From pre-state to post-state legal steps lead, this run's and others'. |
| Runner.DivergesByArguments | temporal_light/worker/executor.py:71-90 | The divergence of `ExecuteActivity` is another activity or other arguments than were recorded, and no result. |
| Runner.System.RunActivity | temporal_light/worker/executor.py:102-145 | From a durable SCHEDULED event legal steps lead to COMPLETED as last event, with the encoded value of the body and the attempt after the failures in the loaded history, and that value is handed over; or to FAILED with the body's error and that number in the log, and the failure dealt with. |
| Runner.System.HandleActivityFailure | temporal_light/worker/executor.py:214-252 | Within the retry limit the row is due after the backoff; beyond it the workflow is FAILED with the exhausted activity as last event, delivered to its parent. Either way legal steps lead there, the log has only grown, and the row is released. |
| Runner.System.Sleep | temporal_light/sleep.py:13-58 | A recorded sleep is passed if and only if its time has come, and the row is due at that time if not; a new one leaves SLEEP in the log, counted from no earlier than the call, and the row due at its end. Legal steps lead there, and a suspension has released the row. |
| Runner.System.SpawnChild | temporal_light/children.py:17-40 | Returns the id derived from parent and step, which afterwards is a child of this workflow and the one its log names for the step; legal steps lead there and the run goes on with that id as its next result. |
| Runner.System.WaitFor | temporal_light/children.py:80-118 | Returns what the first matching event in the log says, a failed child's failure included, or suspends with the marker in the log, the event not in it, and the row WAITING and released; legal steps lead there. |
| Runner.System.Mark | temporal_light/signals.py:37-48 | Suspends with the row WAITING and released and the event not in the log, or returns the event that refused the mark; it never suspends with the lock held. |
| Runner.System.LoadHistory | temporal_light/worker/runner.py:36-42 | A claimed run goes on with the log exactly as it is at that moment, reached from the call by other parties' actions. |
| Runner.System.RunWorkflow | temporal_light/worker/runner.py:34-99 | From the state before the call legal steps lead to one where every result handed over is one the log tells; a finished run has written the outcome its code calls for after those results, or the divergence of an activity, as last event, and has told its parent; a suspended one rests as its pending command asks: retry or failure, sleep, or wait. |
| Runner.System.Drive | temporal_light/worker/runner.py:48-97 | The same for the coroutine from its first step on. |
| Runner.System.Heartbeat | temporal_light/worker/scheduler.py:97-106 | A beat leaves a full lock duration on the row and is a legal step of the model. |
| Runner.System.ClaimNext | temporal_light/worker/scheduler.py:45-54 | Claims the oldest eligible workflow for a new run, or finds that no row is eligible. |
| Runner.System.TablesAreReachable | temporal_light/worker/runner.py:34-99 | The tables are those of a reachable state of the model under the system's schedule, under no schedule at all, and under exclusion if the leases are timely and safe. |
| Runner.System.TablesAreConserved | temporal_light/db/queries.py:462-532 | In the tables themselves, under any schedule: one delivery per terminal event, one child per spawn. |
| Runner.System.TablesReplay | temporal_light/worker/executor.py:57-145 | In the tables of a system whose leases exclude overlap and whose results are restorable: at most one event of each kind per step, one trace per log, and a completed result that is the one of an uninterrupted execution. |
| Scheduling.Scheduler.Round | temporal_light/worker/scheduler.py:35-61 | At capacity nothing is claimed and the worker counts as busy; below it the oldest eligible workflow is claimed, and the worker goes idle only if there is none. |

## Left out

- Pydantic models: `model_dump` and `model_validate` are foreign code; dataclasses are modelled field by field.
- Float dict keys, and the spellings `int()` accepts beyond an optional sign and decimal digits (spaces, underscores, other scripts).
- A union with the member `Any` is modelled as accepting every value, as Python 3.10 does; later versions raise there. No theorem depends on it.
- JSONB reorders object keys and drops duplicate ones; JSON objects here keep their order, so a restored dict has the order it was stored in (comparisons ignore order), and payloads that are no JSON, which the driver would reject, do not occur.
- Activity bodies, process pools and timeouts: a body ends in success with any value, failure with any error, or a crash.
- `NOW()` is a transaction's start in `ReadCommitted` and the moment of the transaction elsewhere; workers and database share one clock, and a clock reading happens at the instant of the call it is for.
- Event ids are assumed to follow commit order, which the BIGSERIAL column alone does not guarantee.
- Locks on index entries and tables, and the queue in which PostgreSQL serves waiters; a claim is not executed while its row is locked, where PostgreSQL skips the row.
- `ReadCommitted` runs on one store and no runs: the order of commits it finds is that of whole transactions, and no theorem ties the start times in it to the clock of `Cluster`.
- Signals with the reserved type `__child_completed__`, and waits for children the workflow has not spawned (`Progress.JoinsOnlyOwn`).
- The status check of the signal endpoint: signals may arrive for any row here, as they may after a check that has gone stale.
- Negative `max_retries`, `created_at`, `updated_at`, the workers table, and workers with different registries.
- Error messages are a datatype of reasons; formatting them is not modelled.
- Workflow code that catches `WorkflowSuspended` or `DivergenceError`, and `run_child`, which is a spawn followed by a wait.
- Runner.System.RunWorkflow: `fuel` bounds the number of results handed to workflow code, which may go on for ever; the machine of `Cluster` has no such bound. A crash of the run itself is the `Crash` action of the machine, not a path of the method.
- Runner.System.ClaimNext: asks for a schedule that does not promise exclusion, since the query cannot know of runs; with `Timely` exclusion follows.
- Runner.System.WaitFor: covers `wait_for_signal` and `wait_for_child`, which differ only in the event they look for.
- Stream.EventStream.Resume: says what is yielded once a notification is handled, not that one arrives; a notification between the history read and the registration of the queue is missed until the next.
- The claim loop around a round, with its pauses, and the loop over worker heartbeats.
- HTTP endpoints, the client, the dashboard, the text format of the stream, configuration parsing, profiling and shutdown.
- Minimum spacing of retries: signals and crashes legitimately shorten the backoff.
