# Durable workflow runs, versioned artifacts and context packing, verified

A Dafny model of the parts of flow-speckit whose correctness depends on order: what is committed
before what, who reads when, and what a crash leaves behind.

**The durable run protocol.** A run is an append-only event log with a projection row, a queue row
and timers. Executors replay a workflow body against the log and go live from the first step the
log does not record; schedulers, gate resolvers, child settles and cancellations append to the same
log and enqueue the run again. The model has four views of it, each at the grain its properties need:

- `Durable*`: one run as a transition system over whole schedules of replay passes, with
  interleaved branches of parallel lists, wakers, and a crash after any commit.
- `Wake*`: any number of executors and wakers against each other, commit by commit, for the
  question whether a wake can be lost.
- `Database`, `Context`, `Engine`, `Gates`, `Timers`: the code in its own imperative form. Methods
  update the tables commit by commit; `Session.budget` counts the commits left before the process
  dies, so every contract speaks of every cut. `Frontier`, `Commits`, `LiveSteps` and `ReplayEnds`
  hold the specification and what each commit keeps. `Refinement` and `Simulation` tie this view to
  the first: every pass the engine makes over an open run of a sequential body, cut anywhere, is a
  run of the transition system, and so is every waker's update, so the theorems about all schedules
  hold of the tables (`Simulation.CompletedPass`). `SealedRuns` does the same for passes over
  completed runs and for passes that find the pinned version gone. `ParkedRuns` has the runs whose
  row does not show what their log folds to. `WakeTables` shows that what parks, resolutions, settles
  and timer firings leave in the tables are steps of the machine of `Wake`.
- `EventLog`, `Queue`, `WorkerLoop`, `Settle`, `Cancel`, `CancelRace`: sequence numbers under concurrent
  appends, claims over histories, the worker's wake flag, child settles, the cancel cascade and its race
  with a suspending executor.

A workflow body is a strategy: its next action (return, raise, or await a list of steps) is a
function of the results it has been handed. It may loop for ever. Handlers, clocks and ids answer
from outside.

**The artifact store** (`Artifacts`, `Store`) and **its lineage** (`Lineage`): versions, statuses and
edges in place, and the depth-bounded recursive query over them. **Context packing** (`Distances`,
`Assemble`): breadth-first depths and the budgeted packer.

## What the proofs found

The code differs from its comments and documentation in these places; the model follows the code.

- `context.py:402` calls the "requested twice" guard unreachable. A label that spells another one's
  numbered form (`x#2`) reaches it (`Keys.StepKeyCollision`).
- `engine.py:10-12` says that at rest the row always matches the fold of the log. A parked run's row
  does exactly when no failure was on the log before the pass and the child it waits for has not
  failed yet, or the failure is the latest event (`Engine.FullyParked`). So a run resumed after a
  failure is shown as failed while its log folds to waiting (`ParkedRuns.RestartedPass`), and the
  parent of a failed child that runs again stays pending and is due again at once
  (`ParkedRuns.RetriedPass`). A pass cut between `run_completed` and its row update leaves the row
  stale for good (`EngineTheorems.StaleForGood`).
- `engine.py:20-22` says a completed run's history is never poisoned. That holds for mismatches; a
  body that raises during replay, or a pinned version that is gone, appends `run_failed` to it
  (`Engine.WorkflowEngine.ConcludeSealed`, `ExecuteRun`).
- `engine.py:360-362` says no interleaving strands a run. A retry wake can be eaten, because its
  timer is deleted after its upsert and leaves no other trace (`WakeRetry.RetryWakeEaten`).
- `engine.py:484-485` says every terminal path settles the parent. A child cancelled while its
  executor suspends can have its status written back before the settle reads it: its parent is then
  never told (`CancelRace.ParentToldIff`, `CancelRace.CancelRaceLosesParent`).
- `worker.py:147-148` says no wake-up is lost. A run whose stale claim the reaper frees becomes due with
  no notification; only the poll timeout finds it (`WorkerLoop.NoLostWakeup`, `WorkerLoop.ReapedUnnoticed`).
- A failed run that is enqueued again and parks loses a wake that comes before its queue row goes: the
  reconciling read stops at the old failure (`WakeResumed.ResumedReconcile`).
- Retry accounting fails when a pass ends between a final `step_failed` and its `run_failed`: the resumed
  step is tried and recorded again (`DurableRetry.RetryAccountingBreaks`). A crash does that, and so does
  a sibling branch of a parallel list that suspends the pass after the failure.
- A gate timeout with `on_timeout="approve"` resolves the gate opened last under its label, which
  need not be the one that timed out (`Timers.TimeoutResolvesOwnGate`, `Timers.TimeoutResolvesAnother`).
- A completed log also replays if one of its completed steps has become a resolved gate under the same
  key (`EngineTheorems.SealedReplayExact`).
- A parent whose failed child is resumed and completes ends up with a failure and a completion of the
  same step (`Settle.AfterFailure`, `Settle.ResumedChildSettlesTwice`).

## Model

| member | source | states |
|---|---|---|
| Keys.StepKeyCollision | packages/flow-speckit/src/flow_speckit/workflows/context.py:398-406 | Two different requests get one step key exactly when one label already spells the other's numbered form (`x#2`): the "requested twice" guard, commented as unreachable, is reached by such labels and only by them |
| Keys.StepKeyInjective | packages/flow-speckit/src/flow_speckit/workflows/context.py:398-402 | Among labels without `#`, a step key determines its label and ordinal |
| Keys.AddressRoundTrip | packages/flow-speckit/src/flow_speckit/artifacts/refs.py:41-59 | Every `key@version` address parses back to that key and version, for empty keys and keys containing `@` |
| Keys.DecimalRoundTrip | packages/flow-speckit/src/flow_speckit/artifacts/refs.py:57-58 | Reading back a printed number gives the number |
| Tables.ShowInjective | packages/flow-speckit/src/flow_speckit/workflows/context.py:197-203 | Run ids read differently when they differ, derived ones included |
| Keys.BeforeDecides | packages/flow-speckit/src/flow_speckit/workflows/context.py:416-428 | String order: at the first difference the smaller character decides, and a prefix goes first |
| Program.PlainLabelsNeverClash | packages/flow-speckit/src/flow_speckit/workflows/context.py:398-406 | At every position of a body without `#` in its labels the allocator hands out fresh keys |
| Program.ReplayDeterministic | packages/flow-speckit/src/flow_speckit/workflows/context.py:541-553 | Of two histories one log leads a body to, one is a prefix of the other |
| Program.ReplayGrows | packages/flow-speckit/src/flow_speckit/workflows/engine.py:258-278 | A log that records more leads a body at least as far along the same way |
| Events.ProjectRun | packages/flow-speckit/src/flow_speckit/workflows/events.py:260-309 | The loop computes the left fold of the log, event by event |
| Events.StatusIsLatest | packages/flow-speckit/src/flow_speckit/workflows/events.py:276-301 | The folded status is that of the latest event, whatever came before |
| Events.ColumnsAreLatest | packages/flow-speckit/src/flow_speckit/workflows/events.py:276-301 | Step, output, error and request are those of the latest event that sets them, and unset before the first |
| EventLog.NumbersAreGapless | packages/flow-speckit/src/flow_speckit/workflows/events.py:193-227 | For any number of appenders with lock, read, insert, commit and rollback as separate steps, and locks shared through hash collisions: a run's numbers are exactly 1 to n, and no insert meets a taken number |
| EventLog.AbortLeavesNoHole | packages/flow-speckit/src/flow_speckit/workflows/events.py:224-226 | A rolled-back append changes no entry and frees the lock for the next appender |
| DurableTheorems.OneOutput | packages/flow-speckit/src/flow_speckit/workflows/engine.py:258-327 | Over any schedule of passes cut after any commit, with parallel branches and wakers interleaved: all values returned are equal, and equal to the body evaluated on the recorded results |
| DurableTheorems.CompletedExactlyOnce | packages/flow-speckit/src/flow_speckit/workflows/context.py:464-522 | Once a run has returned, each non-gate step its body asks for has exactly one `step_completed`, each gate one `gate_resolved`, and no other key a completion |
| DurableTheorems.HandlerCalls | packages/flow-speckit/src/flow_speckit/workflows/context.py:464-522 | A completed step's handler ran 1 + (its recorded failures) + (calls whose outcome a crash or a cancelled sibling lost) times |
| DurableTheorems.NoReexecution | packages/flow-speckit/src/flow_speckit/workflows/context.py:551-553 | Whenever a step may be started, called or committed, it has no completion yet |
| DurableTheorems.Confluence | packages/flow-speckit/src/flow_speckit/workflows/context.py:802-835 | Two returned runs of one body under any two interleavings and crash schedules, in which no step came out differently, asked the same steps, completed the same steps and returned the same value |
| DurableTheorems.KeysInListOrder | packages/flow-speckit/src/flow_speckit/workflows/context.py:524-539 | The keys of a parallel list are fixed by list order: the i-th gets its label's next ordinal after the requests before it |
| DurableTheorems.ResultsInListOrder | packages/flow-speckit/src/flow_speckit/workflows/context.py:824-826 | Whatever completes first and wherever the run is cut, the i-th value handed to the body for a list is the one recorded for the list's i-th key |
| DurableTheorems.ReachableGates | packages/flow-speckit/src/flow_speckit/workflows/context.py:722-769 | Over any schedule of one live pass at a time and wakers that resolve only open gates, every gate is opened at most once and resolved at most once, after that |
| DurableTheorems.NeverRejected | packages/flow-speckit/src/flow_speckit/workflows/context.py:416-428 | A body left unchanged under its pinned version, with no `#` in its labels, is never rejected as non-deterministic, whatever was cut or interleaved |
| DurableTheorems.SealedRemembers | packages/flow-speckit/src/flow_speckit/workflows/context.py:408-414 | On a completed log every step the body asks for is remembered, parallel lists included |
| DurableSteps.StepKeeps | packages/flow-speckit/src/flow_speckit/workflows/context.py:464-522 | Each of the 24 kinds of step keeps the run invariant |
| DurableRetry.RetryAccounting | packages/flow-speckit/src/flow_speckit/workflows/context.py:471-507 | Failure numbers of a key are always 1, 2, ...; up to the first terminal event there are at most `max_attempts` (one if that is not positive) and only the last can have `will_retry` false, unless a pass was cut between a final `step_failed` and its `run_failed` |
| DurableRetry.RetryAccountingBreaks | packages/flow-speckit/src/flow_speckit/workflows/context.py:480-491 | After such a cut: recording one more failure keeps the accounting exactly when the previous failure was a retryable one |
| DurableExamples.CutAfterFinalFailure | packages/flow-speckit/src/flow_speckit/workflows/engine.py:312-317 | A reachable run that a cut after a final failure lets fail once too often |
| DurableExamples.RunsReturn | packages/flow-speckit/src/flow_speckit/workflows/engine.py:319-327 | A reachable run that returns |
| Context.ReadMemory | packages/flow-speckit/src/flow_speckit/workflows/context.py:378-389 | The start-of-pass loop builds exactly the results, decisions, open gates and failure counts of the log |
| Context.WorkflowContext.constructor | packages/flow-speckit/src/flow_speckit/workflows/context.py:338-389 | A fresh context remembers exactly its log and has asked for nothing |
| Context.WorkflowContext.Allocate | packages/flow-speckit/src/flow_speckit/workflows/context.py:398-406 | In place, the allocator function: the next ordinal's key, or a clash |
| Context.WorkflowContext.Checkpointed | packages/flow-speckit/src/flow_speckit/workflows/context.py:464-522 | Appends one `step_started` and one outcome per try, calls the handler once per try with consecutive attempt numbers, retries in process exactly while attempts and the error allow it, and leaves the run tidy wherever it is cut; the exact events written, by the handler's replies |
| Context.WorkflowContext.OpenGate | packages/flow-speckit/src/flow_speckit/workflows/context.py:722-769 | Announces a gate once, with its label and artifact and, if it has one, its timeout's timer; re-suspends on an open one without any write; or auto-approves it and hands the body an approval; tidy wherever it is cut |
| Context.WorkflowContext.Doze | packages/flow-speckit/src/flow_speckit/workflows/context.py:788-798 | Starts and arms a sleep once, re-suspends on a pending timer without any write |
| Context.WorkflowContext.StartChild | packages/flow-speckit/src/flow_speckit/workflows/context.py:886-894 | The dispatch writes the parent's `step_started`, the child's `run_started` with its name, version, input and the parent as actor, and the child's row with its queue row; what each cut between these commits leaves |
| Context.WorkflowContext.SettleChild | packages/flow-speckit/src/flow_speckit/workflows/context.py:906-955 | Settles a terminal child from the parent's side, as the settle function says, or is cut before or between its two commits; the body gets the child's id and the output of its row, or its own error, a cancellation's only when it has none |
| Context.WorkflowContext.ReplayParallel | packages/flow-speckit/src/flow_speckit/workflows/context.py:802-835 | Against a completed log a parallel list returns its recorded values in list order, or is refused, and writes nothing |
| Context.WorkflowContext.AssertReplayConsistent | packages/flow-speckit/src/flow_speckit/workflows/context.py:416-428 | A body that returned ends its pass normally exactly when no remembered completion was left unasked; else the replay has diverged at the first such key in string order |
| Context.WorkflowContext.RunBody | packages/flow-speckit/src/flow_speckit/workflows/engine.py:276-278 | Terminates; on a completed log it writes and calls nothing and returns, raises or diverges exactly as the log says; on an open log each way to end is justified by the log it leaves, the pass is a run of the transition system to a state where that end is enabled, and a run whose frontier step still waits is left untouched and suspends |
| LiveSteps.NotStuck | packages/flow-speckit/src/flow_speckit/workflows/context.py:408-428 | Where the body is over, or asks for a step twice, no step waits |
| Engine.WorkflowEngine.ExecuteRun | packages/flow-speckit/src/flow_speckit/workflows/engine.py:226-327 | One whole pass, cut after any commit: sealed replay, a missing version, and for sequential bodies `OpenPass`: the projection refinement, append-only log, queue row, a final event the log before it calls for, reported as failed or raised as the code does, a parent that waited told, and a stuck run left alone; and a run of the transition system with the same log, wake sources, handler calls and returned value |
| Engine.WorkflowEngine.Conclude | packages/flow-speckit/src/flow_speckit/workflows/engine.py:279-326 | Each signal of an open pass ends it as promised: `OpenPass` |
| Engine.WorkflowEngine.ConcludeSealed | packages/flow-speckit/src/flow_speckit/workflows/engine.py:297-319 | Against a completed log only an exception of the body's own is recorded, by `run_failed` on the completed run |
| Engine.WorkflowEngine.Park | packages/flow-speckit/src/flow_speckit/workflows/engine.py:279-288 | Status, then queue row, then the reconciling read; any cut changes at most the status and the queue row. Uncut, on a log without failure or cancellation, it ends pending and in the queue exactly when the step's wake has left its trace (gate resolved; sleep completed; child completed or failed; retry timer gone), and else parked and out of the queue; otherwise the latest failure or cancellation stands |
| Engine.WorkflowEngine.Reconcile | packages/flow-speckit/src/flow_speckit/workflows/engine.py:331-397 | The reconciling read, with the same condition: a trace of the wake re-enqueues the run as pending, unless the log has a failure or cancellation, the latest of which then stands |
| Engine.FoundHonours | packages/flow-speckit/src/flow_speckit/workflows/engine.py:364-397 | What the read finds, by the events of the log and the timers alone |
| WakeTables.ParkRuns | packages/flow-speckit/src/flow_speckit/workflows/engine.py:331-397 | What an uncut park leaves in the tables is what the machine of `Wake` reaches by its steps delete, reconcile and, exactly when the wake is found, requeue |
| WakeTables.ParkKeepsAwake | packages/flow-speckit/src/flow_speckit/workflows/engine.py:331-397 | So a park of the engine keeps a run without terminal event awake: enqueued, with a live source, or with an actor that must still enqueue it (sleep, gate and child waits) |
| WakeTables.ResolutionRuns | packages/flow-speckit/src/flow_speckit/workflows/gates.py:158-196 | What a resolution leaves in the tables is what a waker of that machine does: trace, then queue row |
| WakeTables.SettleRuns | packages/flow-speckit/src/flow_speckit/workflows/engine.py:513-563 | So is what a child's settle leaves for the parent it tells |
| WakeTables.SleepRuns | packages/flow-speckit/src/flow_speckit/workflows/timers.py:102-116 | And what a sleep's firing leaves, the timer going last |
| WakeTables.RetryRuns | packages/flow-speckit/src/flow_speckit/workflows/timers.py:142-145 | And a retry's firing |
| Engine.WorkflowEngine.EndRun | packages/flow-speckit/src/flow_speckit/workflows/engine.py:425-441 | The final event, its row update, the queue row and the three commits of the parent's settle, in this order; uncut, no parent is left waiting for the run |
| Engine.EndTells | packages/flow-speckit/src/flow_speckit/workflows/engine.py:484-486 | A run's final event and the clean-up that follows leave no parent waiting for it |
| Engine.UnregisteredBlames | packages/flow-speckit/src/flow_speckit/workflows/engine.py:243-262 | A missing version is blamed on the latest step started, or failed at, if there is one |
| Engine.WorkflowEngine.FindLastEnd | packages/flow-speckit/src/flow_speckit/workflows/engine.py:364-371 | The reverse scan finds the latest `run_failed` or `run_cancelled` |
| Engine.FullyParked | packages/flow-speckit/src/flow_speckit/workflows/engine.py:364-397 | A pass that parks adds no terminal event. If it is not cut, the row then says failed exactly when the log had a failure before the pass, pending exactly when it had none and the child at the frontier has failed already, and what the run waits for otherwise; it is in the queue exactly when pending; and the row equals the fold of the log exactly when neither was so, or the failure is the latest event |
| Engine.FoundStatus | packages/flow-speckit/src/flow_speckit/workflows/engine.py:364-397 | What the reconciling read finds at a parked frontier, from the log alone: failed on any `run_failed`, else pending exactly when the step is a child with a `step_failed`, else the parked status |
| ParkedRuns.StuckPass | packages/flow-speckit/src/flow_speckit/workflows/engine.py:279-288 | A run whose frontier step is waiting on a live source: what a pass over it leaves in log, row and queue, and whether the row equals the fold, read off the tables before the pass |
| ParkedRuns.RestartedPass | packages/flow-speckit/src/flow_speckit/workflows/engine.py:364-371 | A run that failed, was enqueued again and sleeps: a pass leaves its row failed and its log at waiting_timer |
| ParkedRuns.RetriedPass | packages/flow-speckit/src/flow_speckit/workflows/engine.py:375-397 | A parent whose child failed and is running again: a pass leaves it pending and in the queue, with its log at running |
| Engine.EndsOpen | packages/flow-speckit/src/flow_speckit/workflows/context.py:284-327 | A run that ends has a row equal to the fold of its log and is out of the queue |
| Engine.EndingOpen | packages/flow-speckit/src/flow_speckit/workflows/engine.py:425-441 | Every cut between a final event and the end of its clean-up, the parent's settle included, leaves the run tidy or completed |
| EngineTheorems.SealedReplay | packages/flow-speckit/src/flow_speckit/workflows/context.py:408-428 | A log replays to a normal return exactly when the steps it completed, gates aside, are the non-gate steps the body asks for; every gate asked for is then resolved |
| EngineTheorems.SealedReplayExact | packages/flow-speckit/src/flow_speckit/workflows/engine.py:264-278 | The completed steps equal the non-gate steps asked for if and only if no gate key was itself completed as a step |
| EngineTheorems.SealedReplayMisses | packages/flow-speckit/src/flow_speckit/workflows/context.py:719-721 | A completed run's whole log whose step became a gate under the same key: every sealed pass over it reports completion and writes nothing, although its completed step is not one the body asks for |
| EngineTheorems.SwappedReturns | packages/flow-speckit/src/flow_speckit/workflows/context.py:408-428 | That log leads the body to its return |
| EngineTheorems.StartsTidy | packages/flow-speckit/src/flow_speckit/workflows/engine.py:155-204 | A freshly started run is tidy and its row equals the fold |
| EngineTheorems.WakeKeepsTidy | packages/flow-speckit/src/flow_speckit/workflows/timers.py:102-116 | Every wake of a waiting step leaves the run tidy, at its event and after its row update |
| EngineTheorems.WakeTailKeepsTidy | packages/flow-speckit/src/flow_speckit/workflows/timers.py:114-115 | So do the enqueue, status and timer commits that follow |
| EngineTheorems.StaleForGood | packages/flow-speckit/src/flow_speckit/workflows/engine.py:319-327 | A pass cut between `run_completed` and its row update leaves the row stale, and no replay of the completed run repairs it |
| Commits.AppliedSync | packages/flow-speckit/src/flow_speckit/workflows/context.py:284-327 | An event and its row update keep every column equal to the fold of the log, and what lags after the event alone |
| Frontier.TidyKept | packages/flow-speckit/src/flow_speckit/workflows/context.py:432-435 | A commit that records nothing for the frontier step keeps the run tidy |
| Frontier.TidyAdvanced | packages/flow-speckit/src/flow_speckit/workflows/context.py:512-522 | A commit that records the frontier step's value leaves the run tidy and the body one await further |
| Refinement.HandledPath | packages/flow-speckit/src/flow_speckit/workflows/context.py:464-522 | The tries of a checkpointed step, retried in process and cut after any commit, are enabled steps of the transition system that end in its log, with one invocation per handler call |
| Refinement.LiveLands | packages/flow-speckit/src/flow_speckit/workflows/context.py:541-573 | What any live step writes (handler, gate, sleep, child, wherever cut) is what a run of the transition system writes, and the branch it ends in shows the step's signal |
| Refinement.TracksLive | packages/flow-speckit/src/flow_speckit/workflows/context.py:541-573 | A live step takes a pass that follows the transition system to its next await, or to a state in which the pass can end as it does |
| Refinement.EndRefines | packages/flow-speckit/src/flow_speckit/workflows/engine.py:297-327 | A pass that records its final event takes the finishing, failing or rejecting step of the transition system, with the same event and output |
| Refinement.CutRefines | packages/flow-speckit/src/flow_speckit/workflows/engine.py:279-288 | A pass that parks, dies or loses its final event is a cut one |
| Context.Follows | packages/flow-speckit/src/flow_speckit/workflows/context.py:541-573 | One awaited step of a running pass, remembered or live, keeps the transition system where the pass is |
| Simulation.StartSimulated | packages/flow-speckit/src/flow_speckit/workflows/engine.py:155-204 | A freshly started run, its `run_started` repeated if its dispatch was, is the initial state of its transition system |
| Simulation.PassSimulated | packages/flow-speckit/src/flow_speckit/workflows/engine.py:226-327 | Every pass over an open run keeps tables and transition system in step, and counts its handler calls |
| SealedRuns.SealedSimulated | packages/flow-speckit/src/flow_speckit/workflows/engine.py:264-319 | So does a pass over a completed run, cut anywhere, for any body: it returns once more the output its log leads to, is refused, or records the body's own exception |
| SealedRuns.OrphanSimulated | packages/flow-speckit/src/flow_speckit/workflows/engine.py:243-262 | So does a pass that finds the pinned version gone |
| SealedRuns.ReplayLeads | packages/flow-speckit/src/flow_speckit/workflows/context.py:541-553 | A pass of the transition system gets, by remembered steps alone, wherever the log leads its body |
| Simulation.WakeSimulated | packages/flow-speckit/src/flow_speckit/workflows/timers.py:102-116 | So does every event of a waker: a finished sleep, a gate's decision or timeout, a child's verdict |
| Simulation.SettleSimulated | packages/flow-speckit/src/flow_speckit/workflows/engine.py:473-566 | So does the child-side settle |
| Simulation.SleepSimulated | packages/flow-speckit/src/flow_speckit/workflows/timers.py:102-116 | So does a sleep's firing, cut anywhere |
| Simulation.TimeoutSimulated | packages/flow-speckit/src/flow_speckit/workflows/gates.py:275-325 | So does a gate timeout that fails its run |
| Simulation.OpenGatesWait | packages/flow-speckit/src/flow_speckit/workflows/gates.py:123-133 | On such logs the fold for open gates is right: what it finds open is opened and unresolved, and none was reopened while open |
| Simulation.ResolveSimulated | packages/flow-speckit/src/flow_speckit/workflows/gates.py:158-196 | A decision on a gate that the fold finds open keeps tables and system in step |
| Simulation.CancelSimulated | packages/flow-speckit/src/flow_speckit/workflows/engine.py:569-604 | So does a cancellation of any run, after which no pass begins |
| Simulation.StartReady | packages/flow-speckit/src/flow_speckit/workflows/engine.py:155-204 | Such a run is ready for its first pass |
| Simulation.PassReady | packages/flow-speckit/src/flow_speckit/workflows/engine.py:226-327 | Whatever commit a pass was cut after, the next pass finds all it asks for: the run is tidy, or it has completed |
| SealedRuns.OrphanReady | packages/flow-speckit/src/flow_speckit/workflows/engine.py:243-262 | And after a pass that finds the version gone |
| Simulation.WakeReady | packages/flow-speckit/src/flow_speckit/workflows/timers.py:102-116 | So it does after a waker's event, and after the row update that follows |
| Simulation.CompletedPass | packages/flow-speckit/src/flow_speckit/workflows/engine.py:258-327 | When a pass over the tables completes its run, whatever crashes, retries and wakes came before: the log leads the body to exactly the output handed over, every earlier completion handed over the same, each step asked for completed exactly once and no other, and each handler ran 1 + failures + lost calls times |
| WakeSafety.NoEatenWake | packages/flow-speckit/src/flow_speckit/workflows/engine.py:331-397 | With any number of executors, schedulers, resolvers, settlers and cancellations interleaved commit by commit, and executors that may die anywhere while the run has a queue row: outside one window of retry wakes, a run without a terminal event has a queue row, a live wake source, or an actor that must still enqueue it |
| WakeSafety.RunsSound | packages/flow-speckit/src/flow_speckit/workflows/engine.py:331-397 | Whatever terminal events its log holds, and whoever has crashed: along every schedule of a run that was not cancelled, each executor and waker still has committed what its place in the code says |
| WakeSafety.StepKept | packages/flow-speckit/src/flow_speckit/workflows/engine.py:331-397 | Every step but the clean-up of a cancelled run keeps that, before and after the end of the run |
| WakeRetry.SleepGateChildSafe | packages/flow-speckit/src/flow_speckit/workflows/timers.py:102-116 | Sleep, gate and child suspends alone never strand a run |
| WakeRetry.RetryReconcile | packages/flow-speckit/src/flow_speckit/workflows/engine.py:385-386 | A reconciling read that finds its retry timer is harmless exactly when something else keeps the run awake |
| WakeRetry.RetryWakeEaten | packages/flow-speckit/src/flow_speckit/workflows/timers.py:142-145 | A run that a retry wake strands: upsert, row deletion, read, timer deletion |
| WakeResumed.ResumedReconcile | packages/flow-speckit/src/flow_speckit/workflows/engine.py:364-371 | On every schedule from the start: an executor that has parked a failed run which was enqueued again leaves it without anything to wake it exactly when the wake of the step it parks on came before the reconciling read, and nothing else keeps it awake, as the read stops at the old failure |
| WakeResumed.CompletedReconcile | packages/flow-speckit/src/flow_speckit/workflows/engine.py:364-397 | Where the only terminal event is `run_completed` the read goes on: the run stays awake |
| WakeResumed.ResumedWakeEaten | packages/flow-speckit/src/flow_speckit/workflows/engine.py:364-371 | A reachable run that fails, is enqueued again, sleeps, and is never woken |
| WorkerLoop.NoLostWakeup | packages/flow-speckit/src/flow_speckit/workflows/worker.py:138-150 | Over every schedule of enqueues, notifications, reaps, dying notifiers and drains: a run that a worker sleeping with its flag down has missed was reaped (or its notifier died) since the latest drain that found nothing; nothing is missed if and only if every such run still due will be notified by a later enqueue |
| WorkerLoop.NothingMissed | packages/flow-speckit/src/flow_speckit/workflows/worker.py:147-150 | Without reaps and dying notifiers a sleeping worker misses nothing |
| WorkerLoop.ReapedUnnoticed | packages/flow-speckit/src/flow_speckit/workflows/worker.py:252-262 | A run whose stale claim the reaper frees while the worker sleeps is due, and nobody will say so: only the poll timeout helps |
| WorkerLoop.ClearingLateMisses | packages/flow-speckit/src/flow_speckit/workflows/worker.py:140-150 | Clearing the flag after the drain instead of before would lose a notification, with nothing reaped |
| Timers.Scheduler.FireSleep | packages/flow-speckit/src/flow_speckit/workflows/timers.py:102-116 | However cut: at most one completion and only if there was none; the timer goes only after the completion is logged and the run enqueued; uncut, a step that was not completed is, and its run's row is running |
| Timers.Scheduler.FireRetry | packages/flow-speckit/src/flow_speckit/workflows/timers.py:142-145 | A retry firing writes no event and no row; its timer goes only after the run is enqueued |
| Timers.Scheduler.FireDueTimers | packages/flow-speckit/src/flow_speckit/workflows/timers.py:119-158 | A whole firing pass, cut anywhere: logs grow, no step gets a second completion, no sleep timer goes early. What was fired has lost its timer and had its effect: every sleep is completed, every sleeping or retried run is in the queue or has failed, and every open gate that fails on timeout is resolved or has failed its run |
| Timers.FiresThen | packages/flow-speckit/src/flow_speckit/workflows/timers.py:139-150 | These promises carry over any number of firings, cut and repeated |
| Timers.Scheduler.ResolveGate | packages/flow-speckit/src/flow_speckit/workflows/gates.py:158-196 | Not open exactly when no step of the label is; refused exactly when the artifact of the last open step can not take the decision's status. Else that artifact, and no other, has the status; the log ends with the decision, which a replay finds for the step; the row is pending and the run in the queue; nothing else changed. And what each cut between these leaves |
| Timers.ResolvesAgain | packages/flow-speckit/src/flow_speckit/workflows/gates.py:172-184 | A resolution cut before its event can be repeated: accepted if and only if the first was, with the artifacts as after one |
| Timers.Scheduler.HandleGateTimeout | packages/flow-speckit/src/flow_speckit/workflows/gates.py:228-325 | A stale timeout changes nothing. An approval goes by the label the step was first opened under to the last open step of that label, with all a resolution does, the wake included, or is refused by that step's artifact; an escalation adds a timer; a failure ends the log and the row, takes the run out of the queue, and leaves no parent waiting for it |
| Timers.TimeoutResolvesOwnGate | packages/flow-speckit/src/flow_speckit/workflows/gates.py:247-264 | The step that the handler approves is the one that timed out if and only if every other open gate of its label was opened before it, unless a gate was reopened while open |
| Timers.TimeoutResolvesAnother | packages/flow-speckit/src/flow_speckit/workflows/gates.py:255-258 | A parallel list opens two gates under one label: the handler, called for the first one's timeout, records the approval of the second one and approves the second one's artifact |
| Gates.OpenGate | packages/flow-speckit/src/flow_speckit/workflows/gates.py:123-133 | None exactly when no gate of the label is open; else the last of the open ones in dict order, with its latest opening |
| Gates.FirstLabelIsFirst | packages/flow-speckit/src/flow_speckit/workflows/gates.py:239-243 | The label a timeout goes by is that of the step's first opening |
| Gates.OrderIsOpen | packages/flow-speckit/src/flow_speckit/workflows/gates.py:123-133 | The order a dict keeps has exactly the open steps, and follows their openings unless a gate was reopened while open |
| Settle.SettlesAgree | packages/flow-speckit/src/flow_speckit/workflows/context.py:906-955 | Child-side and parent-side settle, in any order and any number of times, leave one verdict with one payload and attempt, and the parent sees one outcome |
| Settle.SettleTells | packages/flow-speckit/src/flow_speckit/workflows/engine.py:513-563 | A child's settle adds one event to a waiting parent's log: a completion whose result reads back as the child's id and the output of its row, or a first failure, not to be retried, with the row's own error, a cancellation's only when that is missing or empty; the parent is pending and enqueued and waits no more |
| Settle.InlineTells | packages/flow-speckit/src/flow_speckit/workflows/context.py:906-955 | The parent's own settle tells its body and, unless a failure is on record, its log the same |
| Settle.ResultReadsBack | packages/flow-speckit/src/flow_speckit/workflows/context.py:932-935 | From the result of a completed child its id and output can be read back, an absent output included |
| Settle.FirstResultIsFirst | packages/flow-speckit/src/flow_speckit/workflows/context.py:924-930 | A step completed before gives the result of its first completion |
| Settle.FirstSettles | packages/flow-speckit/src/flow_speckit/workflows/engine.py:513-563 | From an undecided step either side leaves the same verdict and nothing else but the wake |
| Settle.LaterSettlesNothing | packages/flow-speckit/src/flow_speckit/workflows/engine.py:508-511 | After that neither side changes anything |
| Settle.SettleWakesIff | packages/flow-speckit/src/flow_speckit/workflows/engine.py:495-563 | A child-side settle records a verdict and wakes the parent exactly when the child's row is terminal and names this live parent, whose log has the dispatch and no verdict; else it changes nothing |
| Settle.AfterFailure | packages/flow-speckit/src/flow_speckit/workflows/context.py:922-945 | After a recorded failure, whatever becomes of the child: its own settle appends nothing, and the parent's appends a completion exactly when the child's row is completed and the step has none |
| Settle.ResumedChildSettlesTwice | packages/flow-speckit/src/flow_speckit/workflows/context.py:931-938 | So a failed child that completes later gives its step a completion beside the failure |
| Cancel.CancelsExactlyReachable | packages/flow-speckit/src/flow_speckit/workflows/engine.py:597-615 | The cascade cancels exactly the runs reachable from the root through child links over live runs |
| Cancel.CancellationEffect | packages/flow-speckit/src/flow_speckit/workflows/engine.py:569-620 | Each of them ends with one new `run_cancelled`, no queue row and no timers; no other run changes but the root's waiting parent, by at most one event |
| Cancel.SettleTouchesParent | packages/flow-speckit/src/flow_speckit/workflows/engine.py:473-566 | A settle touches nobody but the child's live parent, by at most one event |
| CancelRace.ParentToldIff | packages/flow-speckit/src/flow_speckit/workflows/engine.py:585-620 | Over every interleaving of the canceller's commits with those of an executor that checkpoints, parks, reconciles or is cut: the parent gets its failed step and is enqueued if and only if, of the status writes before the settle's read, the last is not the executor's working or parked one: its own restoring of the cancelled status counts for the parent; else the parent stays exactly as it was |
| CancelRace.StepKeeps | packages/flow-speckit/src/flow_speckit/workflows/engine.py:279-288 | Each commit of either side keeps what the settle will read in step with the schedule |
| CancelRace.CancelRaceLosesParent | packages/flow-speckit/src/flow_speckit/workflows/engine.py:364-371 | A schedule, from every start, that ends with the child cancelled, everybody done, and the parent untold |
| Database.Session.CancelOnSession | packages/flow-speckit/src/flow_speckit/workflows/engine.py:569-620 | The recursion terminates on the number of live runs, refuses unknown and terminal runs unchanged, and otherwise cascades and settles |
| Database.Session.CancelChildren | packages/flow-speckit/src/flow_speckit/workflows/engine.py:605-615 | The loop over the children, in any order, skipping those ended meanwhile |
| Database.Session.SettleParentOnChildTerminal | packages/flow-speckit/src/flow_speckit/workflows/engine.py:473-566 | In place, the settle function, which tells a waiting parent of its child as above; cut between its commits it leaves the verdict without the wake |
| Database.Session.FindDispatch | packages/flow-speckit/src/flow_speckit/workflows/engine.py:506-515 | Finds the first recorded dispatch of the child |
| Database.Session.Outcomes | packages/flow-speckit/src/flow_speckit/workflows/context.py:922-945 | Finds whether the step completed and how often it failed |
| Database.Session.Record | packages/flow-speckit/src/flow_speckit/workflows/context.py:432-435 | Event first, row second; a crash leaves at most the event |
| Database.Session.ApplyEventToRunRow | packages/flow-speckit/src/flow_speckit/workflows/context.py:284-327 | In place, the row update the projection fold mirrors |
| Queue.ClaimsAreSeparated | packages/flow-speckit/src/flow_speckit/workflows/queue.py:50-63 | Over any history, between two claims of a run it was re-enqueued, reaped or its row removed |
| Queue.ClaimIsHeld | packages/flow-speckit/src/flow_speckit/workflows/queue.py:74-83 | A row names a worker exactly when that worker took the run and nothing freed it since |
| Queue.ClaimsBeat | packages/flow-speckit/src/flow_speckit/workflows/queue.py:65-72 | `claimed_by` is null exactly when `heartbeat_at` is null |
| Queue.ReleaseEatsNoWake | packages/flow-speckit/src/flow_speckit/workflows/worker.py:184-189 | A worker's own release removes the row exactly when nothing has freed the run since that worker took it |
| Queue.TaskQueue.ClaimOne | packages/flow-speckit/src/flow_speckit/workflows/queue.py:88-104 | Claims a due row that is nobody's and not locked, none of these being more overdue, with a first heartbeat and one attempt more; none when there is none; no other row changes |
| Queue.TaskQueue.ReapStale | packages/flow-speckit/src/flow_speckit/workflows/queue.py:151-166 | Frees exactly the claims without a heartbeat since the threshold, due now, with their attempts kept |
| Queue.TaskQueue.Heartbeat | packages/flow-speckit/src/flow_speckit/workflows/queue.py:107-123 | Beats exactly when the worker still holds the claim |
| Queue.TaskQueue.UpsertTaskQueue | packages/flow-speckit/src/flow_speckit/workflows/timers.py:71-83 | Inserts the row or frees it, due now, keeping its attempt count |
| Queue.TaskQueue.Release | packages/flow-speckit/src/flow_speckit/workflows/queue.py:126-148 | Deletes the row, if the worker named still holds it |
| Artifacts.SupersedesWalk | packages/flow-speckit/src/flow_speckit/artifacts/store.py:109-113 | In every consistent store, the walk along supersedes edges from a key's newest non-rejected row is unique and visits exactly its non-rejected versions in descending order |
| Artifacts.VersionsAreGapless | packages/flow-speckit/src/flow_speckit/artifacts/store.py:122-129 | A key's versions are exactly 1 to n, ascending in creation order |
| Artifacts.OldOnesSuperseded | packages/flow-speckit/src/flow_speckit/artifacts/store.py:109-113 | All non-rejected rows of a key but its latest are superseded |
| Artifacts.CreateKeeps | packages/flow-speckit/src/flow_speckit/artifacts/store.py:80-116 | A new version of any status keeps versions, supersedes edges, closed old rows and acyclicity |
| Artifacts.StatusKeeps | packages/flow-speckit/src/flow_speckit/artifacts/store.py:23-30 | So does every allowed status change, rejection included |
| Artifacts.AddressFindsRow | packages/flow-speckit/src/flow_speckit/artifacts/store.py:356-372 | Every row is found again under the address it prints |
| Store.ArtifactStore.Create | packages/flow-speckit/src/flow_speckit/artifacts/store.py:59-120 | Deduplicates exactly against the latest non-rejected content, or rolls back on an unknown parent. Else one row more, versioned above all of its key, derived from exactly the parents given and superseding exactly the key's latest; that row alone changes, to superseded; no edge is lost; the store stays consistent |
| Store.ParentsAreListed | packages/flow-speckit/src/flow_speckit/artifacts/graph.py:54-89 | Whatever bound it has, the lineage query of a new version shows every parent and the row it supersedes |
| Store.ArtifactStore.SetStatus | packages/flow-speckit/src/flow_speckit/artifacts/store.py:282-319 | Changes exactly the row the reference names (an id, a version of a key, or the key's newest row not rejected), exactly when its status leads to the new one; else reports why not; keeps the store consistent |
| Store.ArtifactStore.MirrorDecision | packages/flow-speckit/src/flow_speckit/workflows/gates.py:136-155 | Accepts a gate decision exactly when the artifact is proposed or already has that status, which it then has; else changes nothing |
| Store.ArtifactStore.LatestRow | packages/flow-speckit/src/flow_speckit/artifacts/store.py:374-385 | The highest-versioned non-rejected row is the last created one |
| Store.ArtifactStore.NextVersion | packages/flow-speckit/src/flow_speckit/artifacts/store.py:122-129 | One above the count of the key's rows, rejected ones included |
| Lineage.QueryLineage | packages/flow-speckit/src/flow_speckit/artifacts/graph.py:54-89 | The result is exactly the edges on directed walks from the root no longer than `max_depth`, first steps in any case, each once, in first-seen order, with exactly the root and their ends as nodes; for any edge table, cycles included |
| Lineage.Deduplicate | packages/flow-speckit/src/flow_speckit/artifacts/graph.py:71-80 | Keeps each row's first occurrence |
| Lineage.FirstSeenGrows | packages/flow-speckit/src/flow_speckit/artifacts/graph.py:71-80 | Deduplication keeps the order in which edges were first seen |
| Lineage.RowsAreWalked | packages/flow-speckit/src/flow_speckit/artifacts/graph.py:17-39 | The recursive join's rows are the ends of walks, level by level |
| Lineage.FullClosure | packages/flow-speckit/src/flow_speckit/artifacts/graph.py:54-65 | Where edges point back to earlier rows, a bound of the row count gives every edge on any walk |
| Lineage.StoreIsAcyclic | packages/flow-speckit/src/flow_speckit/artifacts/store.py:112-115 | A consistent store's edges form such a graph, and no walk returns to its root |
| Distances.DepthsFromRoot | packages/flow-speckit/src/flow_speckit/llm/assemble.py:212-226 | Terminates and maps exactly the nodes linked to the root, each to its shortest undirected distance |
| Distances.QueriedNodesLinked | packages/flow-speckit/src/flow_speckit/llm/assemble.py:181-190 | Every node of a queried lineage is linked to its root, so the default depth is never used |
| Assemble.CollectAncestors | packages/flow-speckit/src/flow_speckit/llm/assemble.py:165-193 | Each ancestor once, at its distance from the primary whose lineage listed it; a node is left out exactly when it is itself a primary no later than each lineage that lists it |
| Assemble.CollectFrom | packages/flow-speckit/src/flow_speckit/llm/assemble.py:181-192 | The nodes of one lineage not seen before, but its root |
| Assemble.SortedInOrder | packages/flow-speckit/src/flow_speckit/llm/assemble.py:130-131 | The ancestors, reordered: farthest first, then oldest first |
| Assemble.SortedDifferent | packages/flow-speckit/src/flow_speckit/llm/assemble.py:130-131 | Ordering repeats no ancestor |
| Assemble.Overshoot | packages/flow-speckit/src/flow_speckit/llm/assemble.py:144-163 | How far a chunk of each fidelity can pass what remains: not at all, by 4 tokens, by less than its own tokens |
| Assemble.DegradedRenders | packages/flow-speckit/src/flow_speckit/llm/assemble.py:144-164 | A chunk bears the ancestor's address; it is full, with the whole body, exactly when that fits what is left; else a summary, the first 2000 characters and the mark of the cut, exactly when those fit; else the title with key and address |
| Assemble.SumsOf | packages/flow-speckit/src/flow_speckit/llm/assemble.py:195-199 | Characters and tokens of chunks add up |
| Assemble.Assemble | packages/flow-speckit/src/flow_speckit/llm/assemble.py:121-142 | Primaries in full, then a prefix of the ordered ancestors, each rendered by what was left then, as above, and added below the budget; the final total is bounded by the last chunk's fidelity; packing stops early only at the budget |
| Assemble.AssembleContext | packages/flow-speckit/src/flow_speckit/llm/assemble.py:78-142 | The whole assembly: the bounded lineages of the references with a row; every ancestor they list once, at its distance, farthest first then oldest; primaries in full; and of the ordered ancestors a prefix packed at falling fidelity within the overshoot bound |

## Left out

- Engine.WorkflowEngine.ExecuteRun: takes open runs of bodies that await one step at a time, without a concurrent actor and without the step-boundary cancellation check, as the projection refinement is about these; interleaved branches, cancellations and concurrent wakers are in `Durable` and `Wake`, so `DurableTheorems.Confluence` of live parallel lists is a theorem about `Durable` that the tables do not inherit. Completed runs are replayed for every body, parallel lists included. The pass must start tidy, which every start, pass (however cut) and wake keeps (`Simulation.PassReady`).
- Context.WorkflowContext.RunBody: a body that awaits empty lists for ever would never end a pass; bodies are required not to await an empty list.
- Context.WorkflowContext.Checkpointed: without the cancellation check before each try, which finds nothing where nobody else acts; in `Durable` a cancellation may fall anywhere, also between that check and the `step_started` that follows it.
- Context.WorkflowContext.OpenGate: without that check.
- Context.WorkflowContext.Doze: without that check.
- Context.WorkflowContext.ReplayParallel: sealed replay only; live parallel lists are in `Durable`.
- Engine.WorkflowEngine.Conclude: no branch for a run found cancelled at a step boundary, for the same reason; in `CancelRace` the executor takes it.
- Database.Session.SettleParentOnChildTerminal: is not cut inside a cancel; its interleavings with executors are in `Wake`.
- Database.Session.CancelOnSession: runs serially; the race with an executor is `CancelRace`.
- CancelRace.ParentToldIff: an executor whose body ends meanwhile writes a terminal status and settles the parent itself; that one is not part of the race.
- WakeSafety.NoEatenWake: while the run has no queue row, no crash of an executor that has deleted it and not reconciled, nor of one that settled a gate or child inline, and no crash inside a gate or child wake sequence: there the code relies on a manual resume. With a queue row anybody may crash anywhere. After a terminal event it says nothing; see `WakeSafety.RunsSound` and `WakeResumed`.
- DurableTheorems.Confluence: compares runs in which no step came out differently; a handler that answers differently is a different run.
- Assemble.CollectAncestors: the loop over a lineage's nodes is in any order, as the query names none; a node without stored body has an empty one (`AssembleContext` queries the lineages and joins the steps).
- Assemble.Assemble: the order of ancestors with equal depth and creation time is that of a stable sort and is not stated.
- DurableRetry.RetryAccounting: `retry_on` is the handler's own verdict on its error.
- Bodies that catch a failed step and go on: the engine does not memoize the failure, so their replay is not deterministic.
- Two live executors of one run in the replay theorems: their logs can hold duplicate completions.
- Step payloads, costs, durations, comments and time stamps; `fire_at` order; what "due" means, beyond a choice of the scheduler.
- `uuid5` and sha256: child ids are injective in parent and step, equal hashes mean equal content. Other ids are new.
- Digits other than 0 to 9 in the version part of a reference.
- `set_status` racing `create`, concurrent resolutions of one gate: the code does not make them atomic.
- Notification delivery, sessions, SQL, LISTEN/NOTIFY; the CLI, plugin discovery, registries, skill and execution back ends, LLM clients, git, diff, search, rendering and migrations.
