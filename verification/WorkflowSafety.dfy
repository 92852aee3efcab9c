/** Safety of every reachable state and every execution of the control plane. */
module WorkflowSafety {
  import opened WorkflowTypes
  import opened WorkflowMachine
  import opened WorkflowInvariant
  import opened WorkflowKeeps
  import opened WorkflowSteps

  // ----- stage order -----

  /** Every published request, at any later time: all earlier stages of its run are Success. */
  lemma PublishedRequestsAreOrdered(cfg: Config, s: State, rt: ReadyTask)
    requires Reachable(cfg, s) && rt in s.sent
    ensures rt.taskId in s.tasks && s.tasks[rt.taskId].dagRunId == rt.dagRunId
    ensures forall a :: a in s.tasks && s.tasks[a].dagRunId == rt.dagRunId && Ordering(s.tasks[a].kind) < Ordering(rt.kind) ==>
              s.tasks[a].status.Success?
    ensures forall a :: a in s.tasks && s.tasks[a].dagRunId == rt.dagRunId && StageBefore(s.tasks[a].kind, rt.kind) ==>
              s.tasks[a].status.Success?
  {
    hide Shape, ShapesOk, NumbersOk, TasksOk, PlansOk, MembersOk, CacheOk, CacheCovers, ListenerOk, FanOutOk, QueueOk, Reachable;
    ReachableInv(cfg, s);
    assert RequestOk(s.tasks, s.taskRuns, rt);
    assert rt.taskRunId in RunsOf(s.taskRuns, rt.taskId);
    assert LowerDone(s.tasks, s.tasks[rt.taskId]);
  }

  /** Once an indexer has an attempt, every embedder of its run is Success, planned or fanned out,
      and no embedder row of the run is still to be saved. */
  lemma IndexerWaitsForEmbedders(cfg: Config, s: State, x: TaskId)
    requires Reachable(cfg, s) && x in s.tasks && s.tasks[x].kind == Indexer && RunsOf(s.taskRuns, x) != {}
    ensures forall e :: e in s.tasks && s.tasks[e].dagRunId == s.tasks[x].dagRunId && s.tasks[e].kind == Embedder ==>
              s.tasks[e].status.Success?
    ensures PlannedDone(s.plans, s.tasks, s.tasks[x].dagRunId, 3)
    ensures !(s.listener.FanOut? && s.listener.m.dagRunId == s.tasks[x].dagRunId)
  {
    hide Shape, ShapesOk, NumbersOk, CacheOk, CacheCovers, ListenerOk, QueueOk, RequestsOk, AttemptOk, TasksOk,
         PlansOk, MembersOk, Reachable, RunsOk, DagRunsOk, MessageOk, DagReadOk, PlanOk;
    ReachableInv(cfg, s);
    assert LowerDone(s.tasks, s.tasks[x]);
    EarlierPlannedStored(s, x, 3);
    PlannedKind(s, s.tasks[x].dagRunId, 3);
  }

  lemma PlannedKind(s: State, r: DagRunId, i: nat)
    requires PlansOk(s.tasks, s.plans, s.origins) && r in s.plans && i < 5 == |s.plans[r].tasks|
    requires s.plans[r].tasks[i].id in s.tasks
    ensures Ordering(s.tasks[s.plans[r].tasks[i].id].kind) == i
    ensures s.tasks[s.plans[r].tasks[i].id].dagRunId == r
  {
    assert PlanOk(s.tasks, s.origins, r, s.plans[r]);
  }

  /** A listing cached earlier in the round never lets a task through that a fresh listing would refuse. */
  lemma StaleCacheOnlyDelays(cfg: Config, s: State)
    requires Reachable(cfg, s) && s.pump.pc.Check? && s.pump.queue != []
    requires IsReady(s.pump.queue[0], SiblingsUsed(s, s.pump.queue[0].dagRunId))
    ensures IsReady(s.pump.queue[0], Siblings(s.tasks, s.pump.queue[0].dagRunId))
  {
    hide Shape, ShapesOk, NumbersOk, CacheOk, CacheCovers, ListenerOk, RequestsOk, AttemptOk, TasksOk,
         PlansOk, MembersOk, Reachable, RunsOk, DagRunsOk, MessageOk, DagReadOk, PlanOk, FanOutOk, OrderOk, QueueOk;
    ReachableInv(cfg, s);
    var s' := PumpCheckState(s);
    var t := s.pump.queue[0];
    KeepPumpCheck(cfg, s);
    HeadIsStored(s);
    OneCache(s, s'.pump.cache, t.dagRunId);
    HeadCovered(s, s'.pump, t);
    CachedReadyIsReady(s, t, s'.pump.cache[t.dagRunId]);
  }

  /** No update is lost: each task row written is the current row with only its status (and result) changed. */
  lemma WritesUpdateTheCurrentRow(cfg: Config, s: State)
    requires Reachable(cfg, s)
    ensures s.pump.pc.SaveTask? ==>
              && s.pump.queue != [] && s.pump.queue[0].id in s.tasks && s.tasks[s.pump.queue[0].id].status.Pending?
              && PumpSaveTaskState(s).tasks
                 == s.tasks[s.pump.queue[0].id := s.tasks[s.pump.queue[0].id].(status := TaskStatus.Running)]
    ensures s.listener.SaveTask? ==>
              var k := s.listener.m.taskId;
              && k in s.tasks && s.tasks[k].status.Running?
              && match s.listener.m
                 case Success(_, _, _, output) =>
                   s.listener.task == s.tasks[k].(status := TaskStatus.Success, result := output)
                 case Failed(_, _, _, _, _) =>
                   if |RunsOf(s.taskRuns, k)| < cfg.maxAttempts then s.listener.task == s.tasks[k].(status := TaskStatus.Pending)
                   else s.listener.task == s.tasks[k].(status := TaskStatus.Failed, result := s.listener.task.result)
  {
    hide Shape, ShapesOk, NumbersOk, CacheOk, CacheCovers, RequestsOk, AttemptOk, TasksOk,
         PlansOk, MembersOk, Reachable, RunsOk, DagRunsOk, MessageOk, DagReadOk, FanOutOk, OrderOk;
    ReachableInv(cfg, s);
  }

  // ----- attempts -----

  /** No write for task k is in flight. */
  predicate Quiet(s: State, k: TaskId) {
    !(s.pump.pc.SaveTask? && s.pump.pc.run.taskId == k) && !(Closing(s.listener) && s.listener.m.taskId == k)
  }

  /** A task's stored status says exactly what its attempts look like. */
  lemma StatusTellsAttempts(cfg: Config, s: State, k: TaskId)
    requires Reachable(cfg, s) && k in s.tasks && Quiet(s, k)
    ensures var runs := RunsOf(s.taskRuns, k);
            match s.tasks[k].status
            case Pending => AllFailed(s.taskRuns, runs) && (runs == {} || |runs| < cfg.maxAttempts)
            case Running => OneRun(s.taskRuns, runs, TaskRunStatus.Running)
            case Success => OneRun(s.taskRuns, runs, TaskRunStatus.Success)
            case Failed => runs != {} && AllFailed(s.taskRuns, runs) && |runs| >= cfg.maxAttempts
            case Ready => false
            case Skipped => false
  {
    hide NumbersOk, CacheOk, CacheCovers, RequestsOk, AttemptOk, TasksOk, PlansOk, MembersOk, Reachable, RunsOk, DagRunsOk,
         MessageOk, DagReadOk, FanOutOk, OrderOk, QueueOk, ListenerOk, AllFailed, OneRun;
    ReachableInv(cfg, s);
    assert Shape(cfg, s.taskRuns, k, SettledStatus(cfg, s.tasks, s.taskRuns, s.pump.pc, s.listener, k));
  }

  /** At most max(1, max_attempts) attempts, numbered exactly 0, 1, ..., without gaps or repeats. */
  lemma AttemptsAreNumbered(cfg: Config, s: State, k: TaskId)
    requires Reachable(cfg, s) && k in s.tasks
    ensures |RunsOf(s.taskRuns, k)| <= if cfg.maxAttempts == 0 then 1 else cfg.maxAttempts
    ensures forall q, p :: q in RunsOf(s.taskRuns, k) && p in RunsOf(s.taskRuns, k) && q != p ==>
              s.taskRuns[q].attemptNo != s.taskRuns[p].attemptNo
    ensures forall n :: n in AttemptNos(s.taskRuns, RunsOf(s.taskRuns, k)) <==> 0 <= n < |RunsOf(s.taskRuns, k)|
  {
    hide ShapesOk, CacheOk, CacheCovers, RequestsOk, AttemptOk, TasksOk, PlansOk, MembersOk, Reachable, RunsOk, DagRunsOk,
         MessageOk, DagReadOk, FanOutOk, OrderOk, QueueOk, ListenerOk;
    ReachableInv(cfg, s);
    var runs := RunsOf(s.taskRuns, k);
    assert Numbered(cfg, s.taskRuns, k);
    NoGap(s.taskRuns, runs);
  }

  /** So counting attempts in 32 bits and numbering them in 31 loses nothing, for any limit that fits. */
  lemma AttemptsFitMachineWords(cfg: Config, s: State, q: TaskRunId)
    requires Reachable(cfg, s) && q in s.taskRuns && cfg.maxAttempts <= 0xFFFF_FFFF
    ensures |RunsOf(s.taskRuns, s.taskRuns[q].taskId)| <= 0xFFFF_FFFF
    ensures cfg.maxAttempts <= 0x8000_0000 ==> s.taskRuns[q].attemptNo <= 0x7FFF_FFFF
  {
    hide Reachable;
    AttemptHasTask(cfg, s, q);
    AttemptsAreNumbered(cfg, s, s.taskRuns[q].taskId);
    assert q in RunsOf(s.taskRuns, s.taskRuns[q].taskId);
    assert s.taskRuns[q].attemptNo in AttemptNos(s.taskRuns, RunsOf(s.taskRuns, s.taskRuns[q].taskId));
  }

  lemma AttemptHasTask(cfg: Config, s: State, q: TaskRunId)
    requires Reachable(cfg, s) && q in s.taskRuns
    ensures s.taskRuns[q].taskId in s.tasks
  {
    hide Reachable, TasksOk, DagRunsOk, PlansOk, MembersOk, ShapesOk, NumbersOk, OrderOk, QueueOk, AttemptOk, CacheOk,
         CacheCovers, RequestsOk, MessageOk, ListenerOk, DagReadOk, FanOutOk;
    ReachableInv(cfg, s);
  }

  ghost function AttemptNos(taskRuns: Runs, runs: set<TaskRunId>): set<nat> {
    set q | q in runs && q in taskRuns :: taskRuns[q].attemptNo
  }

  /** n distinct numbers below n are all numbers below n. */
  lemma NoGap(taskRuns: Runs, runs: set<TaskRunId>)
    requires NumberedIn(|runs|, taskRuns, runs)
    ensures forall n :: n in AttemptNos(taskRuns, runs) <==> 0 <= n < |runs|
  {
    var numbers := AttemptNos(taskRuns, runs);
    ImageSize(taskRuns, runs);
    Below(numbers, |runs|);
  }

  lemma {:induction false} ImageSize(taskRuns: Runs, runs: set<TaskRunId>)
    requires forall q :: q in runs ==> q in taskRuns
    requires forall q, p :: q in runs && p in runs && q != p ==> taskRuns[q].attemptNo != taskRuns[p].attemptNo
    ensures |AttemptNos(taskRuns, runs)| == |runs|
    decreases runs
  {
    if runs != {} {
      var q :| q in runs;
      var rest := runs - {q};
      ImageSize(taskRuns, rest);
      assert AttemptNos(taskRuns, runs) == AttemptNos(taskRuns, rest) + {taskRuns[q].attemptNo};
    } else {
      assert AttemptNos(taskRuns, runs) == {};
    }
  }

  lemma {:induction false} Below(numbers: set<nat>, n: nat)
    requires |numbers| == n && forall x :: x in numbers ==> x < n
    ensures forall x: nat :: x < n ==> x in numbers
  {
    if n > 0 {
      if n - 1 in numbers {
        Below(numbers - {n - 1}, n - 1);
      } else {
        BelowSize(numbers, n - 1);
      }
    }
  }

  lemma {:induction false} BelowSize(numbers: set<nat>, n: nat)
    requires forall x :: x in numbers ==> x < n
    ensures |numbers| <= n
  {
    if n > 0 {
      BelowSize(numbers - {n - 1}, n - 1);
      assert numbers <= (numbers - {n - 1}) + {n - 1};
    } else {
      assert numbers == {};
    }
  }

  // ----- what never changes again -----

  /** One step keeps every finished task row and every finished attempt. */
  ghost predicate KeepsFinished(s: State, s': State) {
    && (forall k :: k in s.tasks && (s.tasks[k].status.Success? || s.tasks[k].status.Failed?) ==>
          k in s'.tasks && s'.tasks[k] == s.tasks[k])
    && (forall q :: q in s.taskRuns && s.taskRuns[q].status.IsTerminal() ==>
          q in s'.taskRuns && s'.taskRuns[q] == s.taskRuns[q])
  }

  lemma StepKeepsFinished(cfg: Config, s: State, step: Step)
    requires Inv(cfg, s) && Enabled(cfg, s, step)
    ensures KeepsFinished(s, Apply(cfg, s, step))
  {
    hide Inv, Enabled, Apply;
    Footprint(cfg, s, step);
    if step.PlanSave? || step.PumpSaveTask? || step.ListenSaveTask? || step.ListenFanOut?
       || step.PumpSaveRun? || step.ListenSaveRun? {
      WritersKeepFinished(cfg, s, step);
    }
  }

  lemma WritersKeepFinished(cfg: Config, s: State, step: Step)
    requires Inv(cfg, s) && Enabled(cfg, s, step)
    requires step.PlanSave? || step.PumpSaveTask? || step.ListenSaveTask? || step.ListenFanOut?
             || step.PumpSaveRun? || step.ListenSaveRun?
    ensures KeepsFinished(s, Apply(cfg, s, step))
  {
    hide Shape, ShapesOk, NumbersOk, CacheOk, CacheCovers, RequestsOk, MembersOk, RunsOk, DagRunsOk, MessageOk, DagReadOk,
         OrderOk, TasksOk, AfterSaveTask, FanOutIds, PlansOk, PlanOk, FreshIds, PlannedDone, FannedOutOrigins;
    match step
    case PlanSave(run) => NextPlanned(s, run);
    case ListenSaveRun => ListenedRunId(cfg, s);
    case ListenSaveTask(_) => SavedRow(cfg, s);
    case _ =>
  }

  lemma NextKeepsFinished(cfg: Config, s: State, s': State)
    requires Inv(cfg, s) && Next(cfg, s, s')
    ensures KeepsFinished(s, s')
  {
    hide Inv, Enabled, Apply, KeepsFinished;
    var step :| Enabled(cfg, s, step) && s' == Apply(cfg, s, step);
    StepKeepsFinished(cfg, s, step);
  }

  lemma ListenedRunId(cfg: Config, s: State)
    requires Inv(cfg, s) && s.listener.SaveRun?
    ensures s.listener.run.id == s.listener.m.taskRunId
  {
  }

  /** A finished row or attempt is the same in every later state of the execution. */
  lemma {:induction false} FinishedStays(cfg: Config, states: seq<State>, i: nat, j: nat)
    requires IsExecution(cfg, states) && i <= j < |states|
    ensures KeepsFinished(states[i], states[j])
    decreases j - i
  {
    hide Inv, Next;
    if i < j {
      FinishedStays(cfg, states, i, j - 1);
      ExecutionKeepsInv(cfg, states, j - 1);
      NextKeepsFinished(cfg, states[j - 1], states[j]);
    }
  }

  /** Whatever result is delivered for an attempt that was already closed at time i, at any later time j
      its handler reads the attempt and stops: the stores, the requests and the pump stay as they are. */
  lemma RedeliveryIsNoOp(cfg: Config, states: seq<State>, i: nat, j: nat, m: WorkerStatus)
    requires IsExecution(cfg, states) && i <= j < |states|
    requires m.taskRunId in states[i].taskRuns && states[i].taskRuns[m.taskRunId].status.IsTerminal()
    requires states[j].listener == Listener.GetRun(m)
    ensures Enabled(cfg, states[j], ListenGetRun)
    ensures Apply(cfg, states[j], ListenGetRun) == states[j].(listener := Listener.Idle)
  {
    FinishedStays(cfg, states, i, j);
  }

  /** The result of a task is stored as Success at most once, so a chunker's fan-out is created at most once. */
  lemma ResultStoredOnce(cfg: Config, states: seq<State>, i: nat, j: nat, k: TaskId)
    requires IsExecution(cfg, states) && i < j < |states|
    requires states[i].listener.SaveTask? && states[i].listener.m.taskId == k && states[i].listener.m.Success?
    requires !states[i + 1].listener.SaveTask?
    ensures k in states[j].tasks && states[j].tasks[k].status.Success?
    ensures !(states[j].listener.SaveTask? && states[j].listener.m.taskId == k)
  {
    hide Inv, Next;
    ExecutionKeepsInv(cfg, states, i);
    SaveTaskStep(cfg, states[i], states[i + 1]);
    FinishedStays(cfg, states, i + 1, j);
    ExecutionKeepsInv(cfg, states, j);
    if states[j].listener.SaveTask? {
      SavingRunning(cfg, states[j]);
    }
  }

  lemma SavingRunning(cfg: Config, s: State)
    requires Inv(cfg, s) && s.listener.SaveTask?
    ensures s.listener.m.taskId in s.tasks && s.tasks[s.listener.m.taskId].status.Running?
  {
  }

  lemma SaveTaskStep(cfg: Config, s: State, s': State)
    requires Inv(cfg, s) && Next(cfg, s, s') && s.listener.SaveTask? && s.listener.m.Success? && !s'.listener.SaveTask?
    ensures s.listener.m.taskId in s'.tasks && s'.tasks[s.listener.m.taskId].status.Success?
  {
    hide Inv, FanOutIds, Apply, Enabled, ListenSaveTaskState;
    var step :| Enabled(cfg, s, step) && s' == Apply(cfg, s, step);
    var ids := LeavesSaveTask(cfg, s, step);
    StoredResult(cfg, s, ids);
  }

  /** The listener leaves its write of the task only by the write. */
  lemma LeavesSaveTask(cfg: Config, s: State, step: Step) returns (ids: seq<TaskId>)
    requires Enabled(cfg, s, step) && s.listener.SaveTask? && !Apply(cfg, s, step).listener.SaveTask?
    ensures FanOutIds(cfg, s, s.listener.m, ids) && Apply(cfg, s, step) == ListenSaveTaskState(cfg, s, ids)
  {
    Footprint(cfg, s, step);
    hide Apply, FanOutIds, FreshIds, IsPendingList, Answers, ListenSaveTaskState;
    ids := step.ids;
    IsSaveTaskState(cfg, s, ids);
  }

  lemma IsSaveTaskState(cfg: Config, s: State, ids: seq<TaskId>)
    requires s.listener.SaveTask? && FanOutIds(cfg, s, s.listener.m, ids)
    ensures Enabled(cfg, s, ListenSaveTask(ids)) && Apply(cfg, s, ListenSaveTask(ids)) == ListenSaveTaskState(cfg, s, ids)
  {
    hide FanOutIds, ListenSaveTaskState;
  }

  lemma StoredResult(cfg: Config, s: State, ids: seq<TaskId>)
    requires Inv(cfg, s) && s.listener.SaveTask? && s.listener.m.Success? && FanOutIds(cfg, s, s.listener.m, ids)
    ensures var s' := ListenSaveTaskState(cfg, s, ids);
            s.listener.m.taskId in s'.tasks && s'.tasks[s.listener.m.taskId].status.Success?
  {
    hide Shape, ShapesOk, NumbersOk, CacheOk, CacheCovers, RequestsOk, MembersOk, RunsOk, DagRunsOk, MessageOk, DagReadOk,
         OrderOk, TasksOk, AfterSaveTask, FanOutIds, PlansOk, PlanOk, FreshIds, PlannedDone, FannedOutOrigins;
    SavedRow(cfg, s);
  }
}
