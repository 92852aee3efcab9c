# Verification of the workflow control plane, its graphs and its text pipeline

Dafny models of the parts of the repository whose behaviour spans many calls, with proofs about every run or every input.
`dafny verify dfyconfig.toml` checks the whole project.

**Control plane.** `DbPlanner` creates a run of five tasks; `DbScheduler` dispatches pending tasks whose earlier stages are
done and consumes worker results, retrying, fanning out embedder tasks and deriving the run's status. `WorkflowMachine` is a
step machine in which every repository call of any number of planners, the pump and the status listener is one step, so that
its executions are all interleavings. `sent` holds the published requests; a result for any of them may be received at any
time, any number of times, with success and failure both possible, or never. A result echoes the ids of its request, and only
a chunker's output lists chunk sets, as in `crates/contexide-workers/src/handlers.rs`. `WorkflowInvariant`, `WorkflowKeeps`
and `WorkflowSteps` prove one inductive invariant; `WorkflowSafety`, `WorkflowTermination`, `WorkflowStatus`,
`WorkflowPayload`, `WorkflowProgress`, `WorkflowLiveness`, `WorkflowFinality`, `WorkflowContinuation`, `WorkflowCrowding`,
`WorkflowStarvation` and `WorkflowThreshold` draw the theorems from it. `Repositories` and `Scheduler` are the imperative classes: each method's contract
gives its effect on the stored rows when nothing else runs during the call, together with a ghost path of the machine's steps
that ends in the new state. New ids are any that are not in use, and the theorems hold for all of them; the source makes UUIDs
of version 7, which are time-ordered (`crates/contexide-core/src/ids.rs:26`), and the theorems that need this order say so
(`WorkflowMachine.InOrder`).

One promise holds only under a condition. A run's stored status and the status its tasks derive can part when the pump
dispatches from a plan whose tasks are not all saved. There are two ways: a planned task is saved when the run is already stored
as Success (`WorkflowLateSave.SuccessBeforePlanSaved`), or it is saved between a refresh's listing, which found only Success,
and the refresh's write (`WorkflowLateSave.StaleRefresh`). The history variable `late` holds the runs to which one of the two
happened since their last listing. Outside a refresh a run past Created agrees with its tasks if and only if it is not late
(`WorkflowStatus.StoredStatusAgrees`). So Failed is final always, but Success is not: in any reachable state and
without a batch limit some continuation takes a stored Success back if and only if a task of the run is not Success and not about
to be, or more tasks are to come, or a refresh is about to write (`WorkflowFinality.UnlimitedSuccessCanRevert`;
`WorkflowLateSave.SuccessReverts` is a case). While no result of the run is being handled this means that the run is late or its
plan not fully saved (`WorkflowFinality.UnfinishedIsLate`), and under any batch limit the Success can be taken back exactly when
the run can get an open attempt (`WorkflowFinality.OpeningDecides`; `WorkflowThreshold.FewFannedCanRevert` gives a condition on
the stored rows). Runs whose plan was saved before their first dispatch are never late (`early` records the others).

A second promise depends on a setting. `list_pending` cuts its listing to `max_batch` before the scheduler tests readiness, so
tasks that have to wait can fill every batch. A planned run of a fair execution ends exactly when it is not starved in this way
(`WorkflowLiveness.PlannedRunsEnd`), and fair executions exist from every state on (`WorkflowContinuation.FairContinuation`).
Without a limit no run is starved. Under a limit of n some are, even with time-ordered ids and successes only
(`WorkflowStarvation.EveryRunEndsIffUnlimited`): the embedders that a chunker's result adds are younger than the indexers of all
runs planned before, so once n runs are planned before the first of their chunkers is done, their indexers fill every batch and
none of these runs ever succeeds (`WorkflowStarvation.CrowdNeverSucceeds`). Fewer than n runs are always served, so the number is
exact (`WorkflowThreshold.LimitServesFewer`). Any number of runs is served, failures included, if again and again fewer than n
rows are in the way, counting one for each run that waits for fanned-out embedders and the Pending rows of failed runs
(`WorkflowThreshold.RunsWithRoomEnd`).

**Graphs.** `DagKahn` describes Kahn's algorithm with a FIFO queue as a function of the number of pops; `Dag` proves the
array-based `validate`, `topo_order` and `roots` against it and states the results on node keys. `Profiles` builds the two
profile graphs with these.

**Text and storage.** `Normalizer` relates the streaming whitespace machine to a gap-by-gap form, after the NFKC step, and
`LineEndings` says when a CR LF is as good as an LF. `Chunker` proves both sliding-window chunkers against one closed form on
64-bit words. `Canon` shows that the canonical form of a JSON value decides equality up to key order; objects are entry sequences
with unique keys, which covers both an ordered and an insertion-ordered map. `ChunksRepo` keeps a secondary index exact. `Retry`
covers the capped exponential backoff.

Where the comments and the code differ, the code is modelled:

- `crates/contexide-normalizer/src/text.rs` says newlines are unified, but CR LF becomes two newlines, so one CR LF between two
  words reads as a blank line (`Normalizer.CrLfIsNotLf`). `LineEndings.CrLfLikeLf` gives the exact condition.
- `crates/contexide-core/src/workflow/retry.rs` gives the delay as base * 2^attempt_no; the code uses attempt_no - 1, capped at
  16. `Retry.DocumentedDelay` gives the exact condition under which the two agree.
- `crates/contexide-chunker-impl/src/sliding_window.rs` keeps a short piece when nothing was emitted yet and the window ends the
  block; with a valid spec that is exactly a block of one window, as its heading says.

A panic of the source is an error result here: both chunkers `expect` a valid spec, and the model returns the validation error
instead of pieces.

## Model

| member | source | states |
|---|---|---|
| `WorkflowInvariant.InitInv` | crates/contexide-workflow-executor/src/runtime.rs:33-56 | the empty control plane satisfies the invariant: rows stored under their own ids, plans in profile order, attempts matching task status, stage order, cache and listener locals consistent |
| `WorkflowSteps.StepKeepsInv` | crates/contexide-workflow-executor/src/scheduler.rs:106-269 | each of the 20 steps (one per repository call of planner, pump or listener, in any interleaving) keeps the invariant |
| `WorkflowSteps.ReachableInv` | crates/contexide-workflow-executor/src/runtime.rs:33-56 | the invariant holds in every state that any interleaved execution reaches |
| `WorkflowSafety.PublishedRequestsAreOrdered` | crates/contexide-workflow-executor/src/scheduler.rs:58-86 | for every published request, then and at every later time, all tasks of earlier stages in its run are Success, across retries and fan-out; the stages are extractor, normalizer, chunker, embedder, indexer in this order |
| `WorkflowSafety.IndexerWaitsForEmbedders` | crates/contexide-workflow-executor/src/scheduler.rs:106-157 | once an indexer has an attempt, every embedder of its run, planned or fanned out, is Success and none is still to be saved |
| `WorkflowSafety.StaleCacheOnlyDelays` | crates/contexide-workflow-executor/src/scheduler.rs:112-120 | when the sibling listing cached in this round lets a task through, a fresh listing would too |
| `WorkflowSafety.WritesUpdateTheCurrentRow` | crates/contexide-workflow-executor/src/scheduler.rs:140-142 | no lost update: each task row about to be written is the row stored at that moment, with status Running; or Success and the output as result; or Pending below the attempt maximum; or Failed with a new result |
| `WorkflowSafety.StatusTellsAttempts` | crates/contexide-workflow-executor/src/scheduler.rs:169-247 | Pending: all attempts Failed; Running: exactly one Running, the rest Failed; Success: exactly one Success, the rest Failed; Failed: at least one, all Failed; Ready and Skipped never occur |
| `WorkflowSafety.AttemptsAreNumbered` | crates/contexide-workflow-executor/src/scheduler.rs:122-130 | a task has at most max(1, max_attempts) attempts, and their numbers are exactly 0..k-1, each once |
| `WorkflowSafety.AttemptsFitMachineWords` | crates/contexide-workflow-executor/src/scheduler.rs:122-123 | attempt counts fit 32 bits for every u32 limit, and attempt numbers fit an i32 for limits up to 2^31 |
| `WorkflowSafety.StepKeepsFinished` | crates/contexide-core/src/workflow/state.rs:197-205 | no step changes a Success or Failed task row or a terminal attempt |
| `WorkflowSafety.FinishedStays` | crates/contexide-core/src/workflow/state.rs:197-205 | the same over whole executions: a finished row is identical at every later time |
| `WorkflowSafety.RedeliveryIsNoOp` | crates/contexide-workflow-executor/src/scheduler.rs:169-172 | a message for an attempt closed at any earlier time, same or conflicting, changes nothing whenever it is delivered |
| `WorkflowSafety.ResultStoredOnce` | crates/contexide-workflow-executor/src/scheduler.rs:177-193 | a task's result is stored as Success at most once in an execution, so a chunker fans out at most once |
| `WorkflowPayload.RequestsCarryPayload` | crates/contexide-workflow-executor/src/scheduler.rs:146-153 | every published request, then and at every later time, carries payload, kind, run and tenant of its task's row and an attempt of that task; the tenant is the run's; the extractor's payload is the run's input, the other planned stages' Null, a fanned-out embedder's one chunk set id |
| `WorkflowPayload.FanOutIsComplete` | crates/contexide-workflow-executor/src/scheduler.rs:187-193 | once a chunker's result is stored and its fan-out saved, the run has besides its planned tasks exactly one embedder for each UUID that the stored result lists, in order and with that id as payload: none lost, none doubled |
| `WorkflowPayload.InputStays` | crates/contexide-workflow-executor/src/scheduler.rs:140-247 | through an execution a run keeps its tenant and input, and a task everything but status and result |
| `WorkflowPayload.ResultIsOutput` | crates/contexide-workflow-executor/src/scheduler.rs:181-183 | when a task turns Success its result is the output of the success in hand, which answers one of its attempts, at that time and at all later ones |
| `WorkflowPayload.ResultIsError` | crates/contexide-workflow-executor/src/scheduler.rs:238-244 | when a task turns Failed its attempts have reached the maximum and its result is the error and error kind of the failure in hand, at that time and at all later ones |
| `WorkflowTermination.AttemptsBounded` | crates/contexide-workflow-executor/src/domain.rs:51-55 | a set of tasks has at most max(1, max_attempts) attempts per task together |
| `WorkflowTermination.WorkLeftIsNatural` | crates/contexide-workflow-executor/src/domain.rs:51-55 | the remaining-work measure of a run is never negative |
| `WorkflowTermination.StepMeasure` | crates/contexide-workflow-executor/src/scheduler.rs:106-269 | the pair (chunker not yet done, work left) of a run never grows, and drops lexicographically whenever an attempt is dispatched or closed, though fan-out adds tasks |
| `WorkflowTermination.RunsSettle` | crates/contexide-workflow-executor/src/scheduler.rs:106-269 | in every infinite execution a planned run sees only finitely many dispatches and results |
| `WorkflowProgress.StalledRunHasReadyTask` | crates/contexide-workflow-executor/src/scheduler.rs:69-86 | in every reachable state an unfinished run with no task Running has a task that a fresh listing finds ready, also while its plan or its fan-out is still being saved |
| `WorkflowProgress.RoundDispatches` | crates/contexide-workflow-executor/src/scheduler.rs:106-157 | a pump round that starts while a run is unfinished with no task Running dispatches one of its tasks before it publishes if and only if its batch lists a ready task of the run, whatever planners and the listener do meanwhile and even if they are saving tasks of that run |
| `WorkflowProgress.UnlimitedListsReady` | crates/contexide-workflow-executor/src/storage.rs:104-115 | without a batch limit every batch lists a ready task of every such run |
| `WorkflowProgress.UnlimitedRoundDispatches` | crates/contexide-workflow-executor/src/scheduler.rs:106-157 | so without a batch limit such a round always dispatches a task of the run |
| `WorkflowLiveness.PublishedBetweenRounds` | crates/contexide-workflow-executor/src/scheduler.rs:138-156 | between rounds every Running attempt has its request published |
| `WorkflowLiveness.PlannedRunsEnd` | crates/contexide-workflow-executor/src/runtime.rs:33-56 | in every infinite execution in which rounds keep completing, every published request is answered once and the listener finishes with every result, a run whose plan was saved is eventually stored as Success or Failed for good, as its tasks say, if and only if it is not starved: not every round from some time on starts with it stalled and lists no ready task of it |
| `WorkflowLiveness.UnlimitedRunsEnd` | crates/contexide-workflow-executor/src/runtime.rs:33-56 | without a batch limit no run is starved, so every planned run ends |
| `WorkflowContinuation.FairContinuation` | crates/contexide-workflow-executor/src/runtime.rs:33-56 | every execution can go on so that rounds keep completing, every published request is answered (from then on with successes) and every result is handled, under time-ordered ids: fairness asks nothing impossible |
| `WorkflowContinuation.ClosedWasReceived` | crates/contexide-workflow-executor/src/scheduler.rs:159-176 | an attempt is closed only by a result that the listener received before |
| `WorkflowCrowding.StepKeepsCrowd` | crates/contexide-workflow-executor/src/storage.rs:104-115 | under a limit of n and time-ordered ids, no step gets n runs out of this situation: their plans are saved, their indexers are Pending without an attempt, and every task their chunkers fanned out is Pending behind all these indexers |
| `WorkflowCrowding.ListedIff` | crates/contexide-workflow-executor/src/storage.rs:104-115 | a batch cut to n lists a Pending task if and only if fewer than n Pending tasks have smaller ids |
| `WorkflowStarvation.CrowdNeverSucceeds` | crates/contexide-workflow-executor/src/storage.rs:104-115 | under a limit of n, n runs whose plans are saved before any of their chunkers is done never succeed, in any execution with time-ordered ids in which their chunkers list at least one chunk set (as every chunker does, crates/contexide-workers/src/handlers.rs:99-112): their indexers are never attempted |
| `WorkflowStarvation.CrowdStarves` | crates/contexide-workflow-executor/src/storage.rs:104-115 | without failures each of these runs is starved in every fair execution |
| `WorkflowStarvation.LimitCanStarve` | crates/contexide-workflow-executor/src/storage.rs:107-113 | so under every batch limit some planned run is starved in a fair execution, with time-ordered ids and successes only |
| `WorkflowStarvation.EveryRunEndsIffUnlimited` | crates/contexide-workflow-executor/src/storage.rs:104-115 | every planned run of every fair execution with time-ordered ids ends if and only if there is no batch limit, and likewise if all results are successes |
| `WorkflowThreshold.ListsReadyIff` | crates/contexide-workflow-executor/src/storage.rs:104-115 | a round lists a ready task of a run if and only if one of them has fewer than n Pending rows with smaller ids |
| `WorkflowThreshold.FewBelowOldest` | crates/contexide-workflow-executor/src/scheduler.rs:69-86 | with time-ordered ids and nothing of these runs being worked on, only two kinds of Pending rows are older than the oldest ready task of the runs without failures: the indexer of a run with a Pending fanned-out task, one a run, and the rows of runs with a failed task |
| `WorkflowThreshold.RunsWithRoomEnd` | crates/contexide-workflow-executor/src/storage.rs:104-115 | under a limit of n and time-ordered ids, failures included, every planned run of a fair execution ends if again and again a round starts with fewer than n such rows in the way: one for each run that waits for fanned-out tasks, and the Pending rows of failed runs; so for n of at least 1 all runs end without fan-out and failures |
| `WorkflowThreshold.LimitServesFewer` | crates/contexide-workflow-executor/src/storage.rs:104-115 | the exact number of runs a limit serves: with at most k runs planned, all of them end in every fair execution of successes with time-ordered ids if and only if there is no limit or it is larger than k |
| `WorkflowStatus.StepKeepsStatus` | crates/contexide-workflow-executor/src/scheduler.rs:88-268 | each step keeps the relation between stored run status and task rows |
| `WorkflowStatus.StoredStatusAgrees` | crates/contexide-workflow-executor/src/scheduler.rs:195-208 | outside a refresh of the run: Created means no attempt but the one being marked; past Created, stored and derived status are equal if and only if the run is not late; late means stored Success with an unfinished task, dispatched from a half-saved plan |
| `WorkflowStatus.RefreshWriteAgrees` | crates/contexide-workflow-executor/src/scheduler.rs:203-207 | a refresh's write makes stored and derived status equal if and only if the run is not late |
| `WorkflowStatus.DispatchedAfterPlanning` | crates/contexide-workflow-executor/src/planner.rs:93-95 | a run not so excepted is Created without attempts as long as its plan is not fully saved |
| `WorkflowStatus.FinalStatusStays` | crates/contexide-workflow-executor/src/scheduler.rs:249-262 | Failed never changes; Success changes in a step if and only if the step is the write of a refresh of that run, and never for runs whose plan was saved before their first dispatch |
| `WorkflowStatus.LateSaveKeepsAgreement` | crates/contexide-workflow-executor/src/planner.rs:93-95 | after a planned task is saved, stored and derived status are equal if and only if the stored status is that of an unfinished run; outside a refresh, if and only if they were equal before and the stored status is not Success |
| `WorkflowFinality.FinishedSuccessStays` | crates/contexide-workflow-executor/src/scheduler.rs:195-208 | with any batch limit, a stored Success of a run with nothing left to do holds in every state that can follow |
| `WorkflowFinality.SuccessCanRevert` | crates/contexide-workflow-executor/src/scheduler.rs:195-208 | in every reachable state some continuation takes a stored Success back only if a task of the run is not Success and not about to be, more tasks are to come (planned, being fanned out, or in the result in hand), or a refresh is about to write; and then one does, unless the batch limit crowds the run out. While the listener handles no result of the run, one does if and only if the run can get an open attempt, under any limit |
| `WorkflowFinality.OpeningDecides` | crates/contexide-workflow-executor/src/scheduler.rs:195-208 | that last law on its own: no Success is taken back before an attempt of its run is open, and from the first open one on it can be |
| `WorkflowFinality.UnlimitedSuccessCanRevert` | crates/contexide-workflow-executor/src/scheduler.rs:195-208 | without a batch limit that is an if and only if |
| `WorkflowFinality.ListedCanRevert` | crates/contexide-workflow-executor/src/scheduler.rs:195-208 | under any batch limit, between rounds and results: a late run with an open attempt, or with a ready task that a round may list, can have its Success taken back |
| `WorkflowThreshold.FewFannedCanRevert` | crates/contexide-workflow-executor/src/scheduler.rs:195-208 | a condition on the stored rows, under a limit of n and time-ordered ids: between results, if no task has failed and fewer than n runs have a Pending fanned-out task, the Success of a late run whose plan is saved can be taken back |
| `WorkflowFinality.UnfinishedIsLate` | crates/contexide-workflow-executor/src/scheduler.rs:195-208 | while the listener handles no result of the run, that condition says: the run is late or its plan is not fully saved |
| `WorkflowLateSave.SuccessBeforePlanSaved` | crates/contexide-workflow-executor/src/planner.rs:72-95 | an execution in which the pump overtakes a half-saved plan: the run is stored Success and the next planned task arrives Pending |
| `WorkflowLateSave.StaleRefresh` | crates/contexide-workflow-executor/src/planner.rs:72-95 | an execution in which a planned task is saved between a refresh's listing and its write: the run is then stored Success with that task Pending |
| `WorkflowLateSave.SuccessReverts` | crates/contexide-workflow-executor/src/scheduler.rs:203-207 | an execution in which a stored Success is taken back |
| `Scheduler.IsReadyAmong` | crates/contexide-workflow-executor/src/scheduler.rs:69-86 | the sibling loop finds a task ready if and only if it is Pending or Ready and every listed task of an earlier stage is Success or Skipped; extractors and kinds the executor does not know wait for none |
| `Scheduler.ListedStatus` | crates/contexide-workflow-executor/src/domain.rs:63-76 | the status derived from a listing is the one derived from the stored rows |
| `Scheduler.DbPlanner.StartPlan` | crates/contexide-workflow-executor/src/planner.rs:61-91 | saves the run as Created and builds five tasks under fresh ids: one step of the machine |
| `Scheduler.DbPlanner.SaveTasks` | crates/contexide-workflow-executor/src/planner.rs:93-95 | saves exactly the task vector, row by row: a path of planner steps |
| `Scheduler.DbPlanner.CreateDagRun` | crates/contexide-workflow-executor/src/planner.rs:54-98 | the whole effect, row by row: the run Created with the input as its parameters, and five Pending tasks extractor, normalizer, chunker, embedder, indexer under new ids, the input as payload of the first and Null of the others; a path of planner steps |
| `Scheduler.DbScheduler.MarkDagRunning` | crates/contexide-workflow-executor/src/scheduler.rs:88-96 | a Created run becomes Running, any other is left alone |
| `Scheduler.DbScheduler.Dispatch` | crates/contexide-workflow-executor/src/scheduler.rs:122-153 | one new Running attempt numbered by the attempts so far, task Running, run marked, and a request with the task's tenant, run, id, kind and payload and the attempt's id; nothing else changes |
| `Scheduler.DbScheduler.SiblingsOf` | crates/contexide-workflow-executor/src/scheduler.rs:112-116 | the cached listing of the run, or a fresh one when it is missing or empty |
| `Scheduler.DbScheduler.Consider` | crates/contexide-workflow-executor/src/scheduler.rs:111-154 | one iteration of the round: dispatch if and only if the listing in use finds the task ready |
| `Scheduler.DbScheduler.ScheduleReadyTasks` | crates/contexide-workflow-executor/src/scheduler.rs:106-157 | a whole round: exactly the pending tasks that were ready at its start are dispatched, each once and in listing order, each request with its task's tenant, run, id, kind and payload and its new Running attempt; their rows turn Running, their Created runs Running, all else stays; a path of pump steps |
| `Scheduler.ChosenAreReady` | crates/contexide-workflow-executor/src/scheduler.rs:69-86 | those are, in listing order, the listed tasks all of whose run's rows of earlier stages are Success or Skipped |
| `Scheduler.DbScheduler.RefreshDagRun` | crates/contexide-workflow-executor/src/scheduler.rs:195-208 | the run's row takes the status its tasks derive, and only if it differs is it written |
| `Scheduler.DbScheduler.WriteDerived` | crates/contexide-workflow-executor/src/scheduler.rs:196-207 | lists the run's tasks and stores the status they derive, writing only if it differs |
| `Scheduler.DbScheduler.ExtractEmbedTasks` | crates/contexide-workflow-executor/src/scheduler.rs:277-313 | one Pending embedder task per parsed UUID, in order, under new ids; none when there is no array |
| `Scheduler.ParsedAt` | crates/contexide-workflow-executor/src/scheduler.rs:287-291 | the parsed UUIDs are those of exactly the array entries that are strings and parse, in array order |
| `Scheduler.DbScheduler.SaveEmbedTasks` | crates/contexide-workflow-executor/src/scheduler.rs:190-192 | saves exactly the fanned-out tasks: a path of listener steps |
| `Scheduler.DbScheduler.StoreSuccess` | crates/contexide-workflow-executor/src/scheduler.rs:181-193 | task row Success with the output, then the fanned-out rows |
| `Scheduler.DbScheduler.FinishSuccess` | crates/contexide-workflow-executor/src/scheduler.rs:177-208 | what a success does to tasks and runs, including the early return for an unknown task |
| `Scheduler.DbScheduler.StoreFailure` | crates/contexide-workflow-executor/src/scheduler.rs:228-246 | the task returns to Pending while attempts are below the maximum and is Failed with an error result otherwise |
| `Scheduler.DbScheduler.FinishFailure` | crates/contexide-workflow-executor/src/scheduler.rs:227-262 | what a failure does to tasks and runs; the run is refreshed even for an unknown task |
| `Scheduler.DbScheduler.HandleWorkerStatus` | crates/contexide-workflow-executor/src/scheduler.rs:159-268 | a result for an unknown or closed attempt changes nothing. Any other closes the attempt with its error or none; a success stores the output in the task and one Pending embedder per listed UUID with that chunk set as payload; a failure sets the task Pending below the attempt maximum and else Failed with error and error kind as result; all other rows stay; the run takes the status its rows have. A path of listener steps |
| `Scheduler.DbScheduler.CloseAttempt` | crates/contexide-workflow-executor/src/scheduler.rs:173-208 | the part for an open attempt: the attempt's row, then its task |
| `Scheduler.PathStaysReachable` | crates/contexide-workflow-executor/src/runtime.rs:33-56 | what a method of one actor does from a reachable state ends in reachable states, so the safety theorems hold at each of its repository calls |
| `Repositories.MemDagRunRepo.Save` | crates/contexide-storage-pg/src/workflows/mem.rs:60-64 | replaces exactly the row of that id |
| `Repositories.MemTaskRepo.Save` | crates/contexide-storage-pg/src/workflows/mem.rs:119-123 | replaces exactly the row of that id |
| `Repositories.MemTaskRepo.ListAll` | crates/contexide-storage-pg/src/workflows/mem.rs:94-96 | every row, once |
| `Repositories.MemTaskRepo.ListByDagRun` | crates/contexide-storage-pg/src/workflows/mem.rs:99-106 | exactly the rows of the run, each once |
| `Repositories.MemTaskRepo.ListPending` | crates/contexide-workflow-executor/src/storage.rs:104-115 | the Pending rows in id order, cut to the smallest ids when there is a limit |
| `Repositories.MemTaskRunRepo.Save` | crates/contexide-storage-pg/src/workflows/mem.rs:191-195 | replaces exactly the row of that id |
| `Repositories.MemTaskRunRepo.ListByTask` | crates/contexide-storage-pg/src/workflows/mem.rs:160-172 | exactly the attempts of the task, as many as there are, attempt numbers not decreasing |
| `DagKahn.WaitingPop` | crates/contexide-core/src/workflow/dag.rs:225-230 | popping a node takes from each indegree exactly the copies of edges from it, so the counter never underflows |
| `DagKahn.FrontierStep` | crates/contexide-core/src/workflow/dag.rs:223-231 | the nodes ever enqueued stay exactly those that wait for popped nodes only, each once |
| `DagKahn.EnqueuedProperty` | crates/contexide-core/src/workflow/dag.rs:214-231 | the same after any number of pops, duplicate edges included |
| `DagKahn.CompleteIffAcyclic` | crates/contexide-core/src/workflow/dag.rs:153-176 | all nodes are popped if and only if the edges have no cycle; unpopped nodes yield a closed walk |
| `DagKahn.LevelsSorted` | crates/contexide-core/src/workflow/dag.rs:214-231 | levels never decrease along the queue, which spans two of them at most: a consequence of first in, first out |
| `DagKahn.OrderIsLayered` | crates/contexide-core/src/workflow/dag.rs:214-231 | longest-walk depths do not decrease along the order |
| `DagKahn.ColumnsInRows` | crates/contexide-core/src/workflow/dag.rs:214-231 | a graph of parallel chains is ordered row by row |
| `Dag.Graph.BuildIndex` | crates/contexide-core/src/workflow/dag.rs:102-112 | maps every key to its position, or reports the first node that repeats a key |
| `Dag.Graph.Link` | crates/contexide-core/src/workflow/dag.rs:128-151 | adjacency lists and indegrees of the edge list, copies included, or the first edge with an unknown endpoint |
| `Dag.Graph.PopNode` | crates/contexide-core/src/workflow/dag.rs:165-170 | one pop decrements by the popped node's edges and enqueues what becomes free, in order |
| `Dag.Graph.InitialQueue` | crates/contexide-core/src/workflow/dag.rs:154-159 | the nodes without incoming edges, ascending |
| `Dag.Graph.Validate` | crates/contexide-core/src/workflow/dag.rs:120-179 | None if and only if the node list is empty or keys are unique, endpoints known and no key reaches itself; otherwise the one error of the graph |
| `Dag.Graph.TopoOrder` | crates/contexide-core/src/workflow/dag.rs:184-243 | same verdict and same error as validation on every graph; on success the order that the lemmas below describe |
| `Dag.Graph.Roots` | crates/contexide-core/src/workflow/dag.rs:246-268 | the nodes whose key no edge points to, in node order; none when keys repeat; unknown endpoints are ignored |
| `Dag.Graph.MarkIncoming` | crates/contexide-core/src/workflow/dag.rs:257-262 | marks exactly the nodes that some edge points to |
| `Dag.OneVerdict` | crates/contexide-core/src/workflow/dag.rs:87-97 | a graph with an error is not valid, and no graph has two errors: so validation and ordering always agree |
| `Dag.CycleOfKeys` | crates/contexide-core/src/workflow/dag.rs:173-176 | index edges have a cycle exactly when some key reaches itself |
| `Dag.TopologicalIsPermutation` | crates/contexide-core/src/workflow/dag.rs:184-243 | every node key appears in the order exactly once |
| `Dag.SourcePrecedesTarget` | crates/contexide-core/src/workflow/dag.rs:181-243 | the source of every edge stands before its target |
| `Dag.TopologicalIsLayered` | crates/contexide-core/src/workflow/dag.rs:214-231 | every key has a longest-chain depth, and depths never decrease along the order |
| `Dag.TieBreak` | crates/contexide-core/src/workflow/dag.rs:223-231 | which of two keys with dependencies stands first: the one whose last dependency stands earlier; if that is the same, the one that its last edge reaches earlier in the edge list |
| `DagKahn.OrderTieBreak` | crates/contexide-core/src/workflow/dag.rs:223-231 | the same on node indices |
| `Dag.KeyDepthUnique` | crates/contexide-core/src/workflow/dag.rs:214-231 | a key has one depth only |
| `Dag.RootsLead` | crates/contexide-core/src/workflow/dag.rs:246-268 | the order starts with the keys of the roots, in node order |
| `Profiles.AppendChain` | crates/contexide-workflow-profiles/src/profiles/full_rag_index.rs:38-88 | appends the nodes extract, normalize, chunk, embed and index of the asset with their kinds and labels, and the four edges from each to the next |
| `Profiles.AppendLinearChain` | crates/contexide-workflow-profiles/src/profiles/ingest_only.rs:38-67 | appends the nodes extract, normalize and chunk of the asset and the two edges from each to the next |
| `Profiles.BuildFullRagIndex` | crates/contexide-workflow-profiles/src/profiles/full_rag_index.rs:13-36 | succeeds if and only if assets are non-empty and pairwise distinct and a document id is present; every node and edge of the valid graph is given, and its order is all extracts, all normalizes, all chunks, all embeds, all indexes, each in asset order; else the error, with the first repeated asset's extract key |
| `Profiles.BuildIngestOnly` | crates/contexide-workflow-profiles/src/profiles/ingest_only.rs:9-36 | the same for three stages |
| `Profiles.DistinctAssetsAreValid` | crates/contexide-workflow-profiles/src/profiles/full_rag_index.rs:22-35 | chains of distinct assets are valid and ordered stage by stage, for any list of stages with distinguishable prefixes |
| `Profiles.RepeatedAssetIsError` | crates/contexide-workflow-profiles/src/profiles/full_rag_index.rs:32-34 | a repeated asset makes the graph's one error the duplicate key of its first stage |
| `Normalizer.UnparseParse` | crates/contexide-normalizer/src/text.rs:104-134 | every text is its gaps and visible characters put together again |
| `Normalizer.ParseUnparse` | crates/contexide-normalizer/src/text.rs:104-134 | and they are found again from the text |
| `Normalizer.FlushLine` | crates/contexide-normalizer/src/text.rs:88-102 | writes the line without trailing spaces, then the newlines asked for |
| `Normalizer.CollapseWhitespace` | crates/contexide-normalizer/src/text.rs:77-145 | the one-pass loop equals tidying every gap on its own: k newlines become min(k,2), an inner horizontal gap one space, a gap at either end nothing but its newlines, all else kept in order |
| `Normalizer.FixedIffClean` | crates/contexide-normalizer/src/text.rs:71-77 | collapsing leaves a text alone if and only if it has no tab, double, leading or trailing space, space beside a newline, or three newlines in a row |
| `Normalizer.CollapsedIsClean` | crates/contexide-normalizer/src/text.rs:71-77 | the result is such a text, and collapsing is idempotent |
| `Normalizer.CollapseAlike` | crates/contexide-normalizer/src/text.rs:71-145 | two texts collapse alike if and only if they have the same visible characters with gaps worth the same between them |
| `Normalizer.CollapseKeeps` | crates/contexide-normalizer/src/text.rs:104-134 | all characters other than space, tab and newline are kept in order |
| `Normalizer.Normalize` | crates/contexide-normalizer/src/text.rs:22-49 | the mapping loop, collapsing and trimming after NFKC |
| `Normalizer.TrimParts` | crates/contexide-normalizer/src/text.rs:49-49 | trimming cuts off all white space at both ends and nothing else |
| `Normalizer.NormalizedIsNormal` | crates/contexide-normalizer/src/text.rs:3-15 | the result is clean, has solid ends and no carriage return, non-breaking space or zero-width character |
| `Normalizer.NormalizedFixedPoints` | crates/contexide-normalizer/src/text.rs:3-15 | exactly such texts are left alone |
| `Normalizer.NormalizedIdempotent` | crates/contexide-normalizer/src/text.rs:28-49 | mapping, collapsing and trimming twice is the same as once |
| `Normalizer.NormalizedKeepsText` | crates/contexide-normalizer/src/text.rs:28-49 | all characters that are neither white space nor zero-width are kept in order |
| `Normalizer.OrdinarySurvives` | crates/contexide-normalizer/src/text.rs:28-49 | printable ASCII characters and all characters above the ideographic space but U+FEFF survive, all of them and in order |
| `Normalizer.NeverOccurs` | crates/contexide-normalizer/src/text.rs:29-49 | the five zero-width characters, the non-breaking space, CR and tab never occur in a result, and no white space at its ends |
| `Normalizer.NbspAndCr` | crates/contexide-normalizer/src/text.rs:29-34 | a non-breaking space normalizes as a space and a lone CR as a newline, anywhere in any text |
| `Normalizer.CrLfIsTwoNewlines` | crates/contexide-normalizer/src/text.rs:29-40 | CR LF normalizes as two newlines, anywhere in any text |
| `Normalizer.CrLfIsNotLf` | crates/contexide-normalizer/src/text.rs:29-40 | and so differs from LF between two words: a concrete text |
| `LineEndings.ParseConcat` | crates/contexide-normalizer/src/text.rs:104-134 | gaps and visible characters of a concatenation: the last gap of the first text joins the first gap of the second |
| `LineEndings.CollapsedAround` | crates/contexide-normalizer/src/text.rs:104-145 | what collapsing makes of two texts around a break, with all newlines of the gap counted together |
| `LineEndings.GapBecomes` | crates/contexide-normalizer/src/text.rs:104-145 | between two clean texts a gap of spaces and tabs becomes one space, one with a single newline that newline, and one with more a blank line |
| `LineEndings.CrLfLikeLf` | crates/contexide-normalizer/src/text.rs:3-15 | for any two texts, joining them by CR LF normalizes like joining them by LF if and only if it is not the only line break in a gap between two words |
| `Chunker.ChunkSpec.Validate` | crates/contexide-core/src/chunker.rs:17-28 | accepts exactly overlap below window and 1 <= minimum <= window, and says which check fails first |
| `Chunker.ReachesEnd` | crates/contexide-chunker-impl/src/sliding_window.rs:48-75 | the closed-form number of windows is the first at which a window reaches the end: 1 + ceil(max(0, n - window) / step) |
| `Chunker.SpanShape` | crates/contexide-chunker-impl/src/sliding_window.rs:48-75 | every window is non-empty and inside the block; all but the last have full size |
| `Chunker.SlidingWindowChunker.Chunk` | crates/contexide-chunker-impl/src/sliding_window.rs:22-79 | returns exactly the closed-form pieces of every block in input order, or the spec's error; each piece has its block's id, the decoding of the block's ids from its start to its end as text, and their number as count; every machine word stays in range |
| `Chunker.SlidingWindowChunker.ChunkBlock` | crates/contexide-chunker-impl/src/sliding_window.rs:38-75 | the loop with the emitted counter keeps exactly the closed-form windows of a block, each with the decoding of its own ids |
| `Chunker.TextChunker.Chunk` | crates/contexide-chunker-impl/src/text.rs:41-87 | the same pieces, their texts trimmed when the chunker is set to |
| `Chunker.TextChunker.ChunkBlock` | crates/contexide-chunker-impl/src/text.rs:54-83 | the loop that looks at start and end keeps exactly the closed-form windows of a block, each with the decoding of its own ids |
| `Chunker.SamePlaces` | crates/contexide-chunker-impl/src/text.rs:62-83 | the spans of the closed-form pieces do not depend on how the text is rendered |
| `Chunker.ChunkersAgree` | crates/contexide-chunker-impl/src/text.rs:41-87 | run on the same tokenizer, input list and spec, both chunkers fail alike or return pieces with the same spans of the same blocks |
| `Chunker.WindowsOverlap` | crates/contexide-chunker-impl/src/sliding_window.rs:48-75 | spans start at 0, and each next one starts exactly the overlap before the end of the last and goes further |
| `Chunker.RebuiltIsPrefix` | crates/contexide-chunker-impl/src/sliding_window.rs:48-75 | dropping the overlaps and concatenating rebuilds the token ids up to the last end |
| `Chunker.TextRejoins` | crates/contexide-chunker-impl/src/sliding_window.rs:48-75 | for a tokenizer whose decoding of a concatenation is that of the parts: the first piece's text and what each later one adds after the overlap make up the text of the covered ids |
| `Chunker.PiecesAre` | crates/contexide-chunker-impl/src/sliding_window.rs:38-75 | every piece is from one of the inputs, in input order, with the rendering of that input's ids between its bounds |
| `Chunker.Loss` | crates/contexide-chunker-impl/src/sliding_window.rs:52-57 | exactly how many trailing tokens are lost: none unless the last window is dropped, and at most minimum - 1 - overlap |
| `Chunker.LossReached` | crates/contexide-chunker-impl/src/sliding_window.rs:52-57 | that bound is reached by some block for every spec that allows a loss |
| `Canon.SortValues` | crates/contexide-core/src/utils/canon.rs:13-28 | the recursive sort by key vector and map insertion computes the canonical form: the value up to entry order, with the keys of every object at every depth strictly ascending by their first different character |
| `Canon.SortedKeys` | crates/contexide-core/src/utils/canon.rs:16-17 | the keys of the sorted entries, strictly ascending by their first different character |
| `Canon.SortObject` | crates/contexide-core/src/utils/canon.rs:15-23 | the object branch: one insertion per sorted key gives the object's canonical form, keys ascending |
| `Canon.LexIsBefore` | crates/contexide-core/src/utils/canon.rs:16-17 | the recursive comparison of keys is the order by the first different character, a proper prefix first |
| `Canon.CanonicalAscends` | crates/contexide-core/src/utils/canon.rs:13-28 | in a canonical form the keys ascend in every object at every depth |
| `Canon.SortForgetsOrder` | crates/contexide-core/src/utils/canon.rs:16-22 | sorted entries are equal if and only if the entries are the same ones |
| `Canon.CanonicalDecides` | crates/contexide-core/src/utils/canon.rs:13-28 | canonical forms of two values are equal if and only if the values differ in the order of object entries only, at any depth |
| `Canon.CanonicalIsSame` | crates/contexide-core/src/utils/canon.rs:13-28 | a canonical form is the value itself up to entry order, with unique keys |
| `Canon.CanonicalIdempotent` | crates/contexide-core/src/utils/canon.rs:13-28 | a canonical form is its own canonical form |
| `ChunksRepo.SwapRemoveDrops` | crates/contexide-storage-pg/src/chunks/mem.rs:41-43 | the swap-remove of a duplicate-free bucket drops that id and no other |
| `ChunksRepo.MemChunksRepo.constructor` | crates/contexide-storage-pg/src/chunks/mem.rs:27-29 | starts empty and well indexed |
| `ChunksRepo.MemChunksRepo.IndexAdd` | crates/contexide-storage-pg/src/chunks/mem.rs:32-35 | adds exactly one entry |
| `ChunksRepo.MemChunksRepo.IndexRemove` | crates/contexide-storage-pg/src/chunks/mem.rs:38-48 | removes exactly one entry and any bucket it leaves empty |
| `ChunksRepo.MemChunksRepo.Save` | crates/contexide-storage-pg/src/chunks/mem.rs:67-87 | replaces exactly one row and keeps the index exact, also when the chunk moves to another set |
| `ChunksRepo.MemChunksRepo.Delete` | crates/contexide-storage-pg/src/chunks/mem.rs:90-99 | removes exactly one row, tells whether it was there, and keeps the index exact |
| `ChunksRepo.MemChunksRepo.ListBySet` | crates/contexide-storage-pg/src/chunks/mem.rs:105-124 | the index lookup equals filtering the primary map by set; order numbers ascend, and ids where order numbers are equal |
| `ChunksRepo.ListingUnique` | crates/contexide-storage-pg/src/chunks/mem.rs:118-121 | there is only one such listing |
| `ChunksRepo.MemChunksRepo.DeleteBySet` | crates/contexide-storage-pg/src/chunks/mem.rs:127-146 | removes exactly the rows of the set, returns their number, and keeps the index exact |
| `ChunksRepo.MemChunksRepo.RemoveRows` | crates/contexide-storage-pg/src/chunks/mem.rs:138-145 | counts each id removed |
| `Retry.BackoffIsExact` | crates/contexide-core/src/workflow/retry.rs:76-81 | the delay is min(max_delay, base * 2^min(attempt - 1, 16)); saturation is never visible |
| `Retry.RefusedExactly` | crates/contexide-core/src/workflow/retry.rs:51-83 | a retry is refused if and only if the error is not transient, the policy is `Never`, or a bounded policy's attempts are used up |
| `Retry.DelayGranted` | crates/contexide-core/src/workflow/retry.rs:59-95 | the delay granted by each policy: the fixed one, or min(max_delay, base * 2^min(attempt - 1, 16)) |
| `Retry.InfiniteGoesOn` | crates/contexide-core/src/workflow/retry.rs:84-95 | the unbounded policy grants a retry after every transient failure, never waits less, and waits equally long from the 17th attempt on |
| `Retry.BackoffGrows` | crates/contexide-core/src/workflow/retry.rs:76-81 | a later attempt never waits less |
| `Retry.DocumentedDelay` | crates/contexide-core/src/workflow/retry.rs:14-21 | the code's delay is the documented base * 2^attempt_no, clamped, if and only if base is zero or the clamp already applies |
| `Retry.RetriesGranted` | crates/contexide-core/src/workflow/retry.rs:56-83 | a task that always fails transiently is granted max_attempts - attempt further retries from that attempt on |
| `Retry.TotalDelayBounded` | crates/contexide-core/src/workflow/retry.rs:68-83 | all delays together are at most min((m-1) * max_delay, base * (2^(m-1) - 1)) |

## Left out

- Postgres, NATS, S3, Qdrant, HTTP, PDF and embedding adapters: I/O over libraries outside the repository.
- Crashes partway through a handler, deletions during a run, and statuses that only other code sets (Cancelled, PartialFailed, Ready, Skipped).
- Messages whose task id and attempt id disagree, and chunk sets in the output of a worker other than the chunker.
- Fields the scheduler only copies: tenant of a result, correlation ids, timestamps, priorities, execution policies, per-task retry columns.
- Machine width of attempt counts: they are unbounded here, and `WorkflowSafety.AttemptsFitMachineWords` says when they fit; an i32 attempt number beyond 2^31 attempts would wrap.
- `retry_logic.rs` and `LimitsView`: nothing in the scheduler consults them.
- Listings by tenant, `list_all` of attempts and `delete` of the workflow repositories: easy members.
- Concurrent use of the two-mutex chunk repository: its operations are modelled one at a time.
- Which single run of a crowded execution is starved: `WorkflowThreshold.ListsReadyIff` and `WorkflowLiveness.PlannedRunsEnd` decide it from the rows that its rounds start with, not from the plans.
- Ids that planners working at the same moment make by turns: here the five ids of a plan are made in one step, so time order means that plans are ordered one by one.
- NFKC: the normalizer is modelled on the text after it, so idempotence is claimed for what follows NFKC only.
- Byte, line and word statistics and the `changed` flag of the normalizer's result.
- The tokenizer is any function from texts to id sequences and back; `trim_multiline` is any function on texts.
- Parsing and printing of JSON text, so canonical strings stop at the canonical value; numbers are compared as literals.
- Markdown rendering, HTML extraction, configuration loading, enum and string tables, worker placeholders.
- `MemTenantsRepo`: its index keeps stale names by design.
