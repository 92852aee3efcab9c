/** Every dag run gets finitely many attempts, however the environment behaves. */
module WorkflowTermination {
  import opened WorkflowTypes
  import opened WorkflowMachine
  import opened WorkflowInvariant
  import opened WorkflowKeeps
  import opened WorkflowSteps
  import opened WorkflowSafety

  // ----- the measure -----

  /** Ids generated for tasks of run r, saved or not. */
  ghost function TasksFor(s: State, r: DagRunId): set<TaskId> {
    set k | k in s.origins && s.origins[k].run == r
  }

  ghost function AttemptsIn(taskRuns: Runs, tasks: set<TaskId>): set<TaskRunId> {
    set q | q in taskRuns && taskRuns[q].taskId in tasks
  }

  ghost function OpenIn(taskRuns: Runs, tasks: set<TaskId>): set<TaskRunId> {
    set q | q in taskRuns && taskRuns[q].taskId in tasks && taskRuns[q].status.Running?
  }

  /** 1 until the run's chunker has succeeded. */
  ghost function ChunkerLeft(s: State, r: DagRunId): nat { if PlannedDone(s.plans, s.tasks, r, 2) then 0 else 1 }

  /** Each possible attempt counts two until it starts, and one while it runs. */
  ghost function WorkIn(cfg: Config, taskRuns: Runs, tasks: set<TaskId>): int {
    2 * cfg.MaxRuns() * |tasks| - 2 * |AttemptsIn(taskRuns, tasks)| + |OpenIn(taskRuns, tasks)|
  }

  ghost function WorkLeft(cfg: Config, s: State, r: DagRunId): int {
    WorkIn(cfg, s.taskRuns, TasksFor(s, r))
  }

  /** A set of tasks has at most max(1, max_attempts) attempts per task. */
  lemma {:induction false} AttemptsBounded(cfg: Config, taskRuns: Runs, tasks: set<TaskId>)
    requires forall k :: k in tasks ==> |RunsOf(taskRuns, k)| <= cfg.MaxRuns()
    ensures |AttemptsIn(taskRuns, tasks)| <= cfg.MaxRuns() * |tasks|
    decreases tasks
  {
    if tasks == {} {
      assert AttemptsIn(taskRuns, tasks) == {};
    } else {
      var k :| k in tasks;
      AttemptsBounded(cfg, taskRuns, tasks - {k});
      assert AttemptsIn(taskRuns, tasks) == AttemptsIn(taskRuns, tasks - {k}) + RunsOf(taskRuns, k);
      assert |AttemptsIn(taskRuns, tasks)| <= cfg.MaxRuns() * (|tasks| - 1) + cfg.MaxRuns();
    }
  }

  lemma WorkLeftIsNatural(cfg: Config, s: State, r: DagRunId)
    requires Inv(cfg, s)
    ensures WorkLeft(cfg, s, r) >= 0
  {
    hide Inv, TasksFor, OpenIn, AttemptsIn, RunsOf;
    var tasks := TasksFor(s, r);
    forall k | k in tasks ensures |RunsOf(s.taskRuns, k)| <= cfg.MaxRuns() {
      AttemptsOfOne(cfg, s, k);
    }
    AttemptsBounded(cfg, s.taskRuns, tasks);
  }

  lemma AttemptsOfOne(cfg: Config, s: State, k: TaskId)
    requires Inv(cfg, s)
    ensures |RunsOf(s.taskRuns, k)| <= cfg.MaxRuns()
  {
    hide Shape, ShapesOk, CacheOk, CacheCovers, RequestsOk, MembersOk, DagRunsOk, MessageOk, DagReadOk,
         OrderOk, TasksOk, PlansOk, AttemptOk, QueueOk, ListenerOk, FanOutOk, MessageOk;
    if k in s.tasks {
      assert Numbered(cfg, s.taskRuns, k);
    } else {
      assert RunsOf(s.taskRuns, k) == {};
    }
  }

  // ----- how steps move it -----

  /** The attempts of run r as stored; they change exactly when one is dispatched or closed. */
  ghost function Attempts(s: State, r: DagRunId): Runs {
    map q | q in s.taskRuns && s.taskRuns[q].taskId in TasksFor(s, r) :: s.taskRuns[q]
  }

  /** The lexicographic order of (chunker left, work left). */
  ghost predicate Below(cfg: Config, s': State, s: State, r: DagRunId) {
    || ChunkerLeft(s', r) < ChunkerLeft(s, r)
    || (ChunkerLeft(s', r) == ChunkerLeft(s, r) && WorkLeft(cfg, s', r) < WorkLeft(cfg, s, r))
  }

  ghost predicate AtMost(cfg: Config, s': State, s: State, r: DagRunId) {
    Below(cfg, s', s, r) || (ChunkerLeft(s', r) == ChunkerLeft(s, r) && WorkLeft(cfg, s', r) == WorkLeft(cfg, s, r))
  }

  lemma AttemptsWithNew(taskRuns: Runs, tasks: set<TaskId>, run: TaskRun)
    requires run.id !in taskRuns && run.taskId in tasks
    ensures |AttemptsIn(taskRuns[run.id := run], tasks)| == |AttemptsIn(taskRuns, tasks)| + 1
  {
    assert AttemptsIn(taskRuns[run.id := run], tasks) == AttemptsIn(taskRuns, tasks) + {run.id};
  }

  lemma OpenWithNew(taskRuns: Runs, tasks: set<TaskId>, run: TaskRun)
    requires run.id !in taskRuns && run.status.Running? && run.taskId in tasks
    ensures |OpenIn(taskRuns[run.id := run], tasks)| == |OpenIn(taskRuns, tasks)| + 1
  {
    assert OpenIn(taskRuns[run.id := run], tasks) == OpenIn(taskRuns, tasks) + {run.id};
  }

  lemma DispatchCosts(cfg: Config, taskRuns: Runs, tasks: set<TaskId>, run: TaskRun)
    requires run.id !in taskRuns && run.status.Running? && run.taskId in tasks
    ensures WorkIn(cfg, taskRuns[run.id := run], tasks) == WorkIn(cfg, taskRuns, tasks) - 1
  {
    hide AttemptsIn, OpenIn;
    AttemptsWithNew(taskRuns, tasks, run);
    OpenWithNew(taskRuns, tasks, run);
  }

  lemma ClosingCosts(cfg: Config, taskRuns: Runs, tasks: set<TaskId>, run: TaskRun)
    requires run.id in taskRuns && taskRuns[run.id].status.Running? && !run.status.Running?
    requires run.taskId == taskRuns[run.id].taskId && run.taskId in tasks
    ensures WorkIn(cfg, taskRuns[run.id := run], tasks) == WorkIn(cfg, taskRuns, tasks) - 1
  {
    AttemptsWithClosed(taskRuns, tasks, run);
    OpenWithClosed(taskRuns, tasks, run);
    hide AttemptsIn, OpenIn;
  }

  lemma AttemptsWithClosed(taskRuns: Runs, tasks: set<TaskId>, run: TaskRun)
    requires run.id in taskRuns && run.taskId == taskRuns[run.id].taskId
    ensures AttemptsIn(taskRuns[run.id := run], tasks) == AttemptsIn(taskRuns, tasks)
  {
  }

  lemma OpenWithClosed(taskRuns: Runs, tasks: set<TaskId>, run: TaskRun)
    requires run.id in taskRuns && taskRuns[run.id].status.Running? && !run.status.Running?
    requires run.taskId == taskRuns[run.id].taskId && run.taskId in tasks
    ensures |OpenIn(taskRuns[run.id := run], tasks)| == |OpenIn(taskRuns, tasks)| - 1
  {
    assert OpenIn(taskRuns[run.id := run], tasks) == OpenIn(taskRuns, tasks) - {run.id};
  }

  lemma OtherRunsCostNothing(cfg: Config, taskRuns: Runs, tasks: set<TaskId>, run: TaskRun)
    requires run.taskId !in tasks && (run.id in taskRuns ==> taskRuns[run.id].taskId == run.taskId)
    ensures WorkIn(cfg, taskRuns[run.id := run], tasks) == WorkIn(cfg, taskRuns, tasks)
  {
    var after := taskRuns[run.id := run];
    assert AttemptsIn(after, tasks) == AttemptsIn(taskRuns, tasks);
    assert OpenIn(after, tasks) == OpenIn(taskRuns, tasks);
  }

  /** The write that dispatches or closes an attempt of run r decreases the measure; for other runs it is neutral. */
  lemma AttemptStepMeasure(cfg: Config, s: State, step: Step, r: DagRunId)
    requires Inv(cfg, s) && Enabled(cfg, s, step) && (step.PumpSaveRun? || step.ListenSaveRun?)
    ensures var s' := Apply(cfg, s, step);
            && ChunkerLeft(s', r) == ChunkerLeft(s, r)
            && (if Attempts(s', r) != Attempts(s, r) then WorkLeft(cfg, s', r) == WorkLeft(cfg, s, r) - 1
                else WorkLeft(cfg, s', r) == WorkLeft(cfg, s, r))
  {
    hide Shape, ShapesOk, NumbersOk, CacheOk, CacheCovers, MembersOk, RunsOk, DagRunsOk, MessageOk, DagReadOk,
         OrderOk, TasksOk, PlansOk, FanOutOk, PlannedDone, WorkIn, RequestsOk;
    var tasks := TasksFor(s, r);
    var run := if step.PumpSaveRun? then s.pump.pc.run else s.listener.run;
    if step.ListenSaveRun? {
      WrittenRun(cfg, s);
    }
    assert Apply(cfg, s, step).taskRuns == s.taskRuns[run.id := run];
    if run.taskId !in tasks {
      OtherRunsCostNothing(cfg, s.taskRuns, tasks, run);
    } else if step.PumpSaveRun? {
      DispatchCosts(cfg, s.taskRuns, tasks, run);
      assert run.id in Attempts(Apply(cfg, s, step), r) && run.id !in Attempts(s, r);
    } else {
      ClosingCosts(cfg, s.taskRuns, tasks, run);
      assert Attempts(Apply(cfg, s, step), r)[run.id] == run;
      assert Attempts(s, r)[run.id] == s.taskRuns[run.id];
    }
  }

  lemma WrittenRun(cfg: Config, s: State)
    requires Inv(cfg, s) && s.listener.SaveRun?
    ensures var run := s.listener.run;
            && run.id in s.taskRuns && s.taskRuns[run.id].status.Running? && !run.status.Running?
            && run.taskId == s.taskRuns[run.id].taskId
  {
    hide Shape, ShapesOk, NumbersOk, CacheOk, CacheCovers, MembersOk, DagRunsOk, MessageOk, DagReadOk,
         OrderOk, TasksOk, PlansOk, FanOutOk, RequestsOk, QueueOk, AttemptOk;
  }

  /** Storing a result may add tasks, but only when it completes the run's chunker. */
  lemma ResultStepMeasure(cfg: Config, s: State, ids: seq<TaskId>, r: DagRunId)
    requires Inv(cfg, s) && s.listener.SaveTask? && FanOutIds(cfg, s, s.listener.m, ids)
    ensures var s' := ListenSaveTaskState(cfg, s, ids);
            && AtMost(cfg, s', s, r) && Attempts(s', r) == Attempts(s, r)
  {
    hide Shape, ShapesOk, NumbersOk, CacheOk, CacheCovers, MembersOk, DagRunsOk, MessageOk, DagReadOk,
         OrderOk, TasksOk, PlansOk, FanOutOk, RequestsOk, QueueOk, AttemptOk, ListenerOk, AfterSaveTask, WorkIn, RunsOk, Rewrites;
    hide FanOutIds;
    var s' := ListenSaveTaskState(cfg, s, ids);
    var m := s.listener.m;
    HandledAttempt(s);
    SavedRow(cfg, s);
    NewIdsHaveNoAttempts(cfg, s, ids);
    ResultCompletes(s, r);
    if ids != [] && m.dagRunId == r {
      FanOutIsChunkers(cfg, s, ids);
      OnlyChunker(s, m.taskId);
      assert ChunkerLeft(s', r) == 0 && ChunkerLeft(s, r) == 1;
    } else {
      SameTasksOnResult(cfg, s, ids, r);
    }
    assert Attempts(s', r) == Attempts(s, r);
  }

  lemma SameTasksOnResult(cfg: Config, s: State, ids: seq<TaskId>, r: DagRunId)
    requires s.listener.SaveTask? && FanOutIds(cfg, s, s.listener.m, ids) && (ids == [] || s.listener.m.dagRunId != r)
    ensures TasksFor(ListenSaveTaskState(cfg, s, ids), r) == TasksFor(s, r)
  {
    hide ParsedUuids, ChunkSets, AfterSaveTask;
  }

  lemma FanOutIsChunkers(cfg: Config, s: State, ids: seq<TaskId>)
    requires s.listener.SaveTask? && FanOutIds(cfg, s, s.listener.m, ids) && ids != []
    ensures s.listener.m.Success? && ChunkSets(s.listener.m.output).Some?
  {
    hide ParsedUuids, ChunkSets;
  }

  lemma ResultCompletes(s: State, r: DagRunId)
    requires s.listener.SaveTask? && Rewrites(s.tasks, s.listener.m.taskId, s.listener.task)
    requires s.tasks[s.listener.m.taskId].status.Running?
    ensures PlannedDone(s.plans, s.tasks, r, 2) ==>
              PlannedDone(s.plans, s.tasks[s.listener.task.id := s.listener.task], r, 2)
  {
  }

  lemma NewIdsHaveNoAttempts(cfg: Config, s: State, ids: seq<TaskId>)
    requires s.listener.SaveTask? && FanOutIds(cfg, s, s.listener.m, ids)
    requires TasksOk(s.tasks, s.plans, s.origins) && RunsOk(s.tasks, s.taskRuns)
    ensures forall r, q :: q in s.taskRuns ==>
              (s.taskRuns[q].taskId in TasksFor(ListenSaveTaskState(cfg, s, ids), r) <==> s.taskRuns[q].taskId in TasksFor(s, r))
  {
    hide ParsedUuids, ChunkSets;
  }

  /** The other steps do not touch attempts; they only save rows or move locals. */
  lemma OtherStepMeasure(cfg: Config, s: State, step: Step, r: DagRunId)
    requires Inv(cfg, s) && Enabled(cfg, s, step) && r in s.plans
    requires !step.PumpSaveRun? && !step.ListenSaveRun? && !step.ListenSaveTask?
    ensures var s' := Apply(cfg, s, step); AtMost(cfg, s', s, r) && Attempts(s', r) == Attempts(s, r)
  {
    hide Inv, Enabled, Apply, WorkIn, PlannedDone, KeepsFinished;
    var s' := Apply(cfg, s, step);
    Footprint(cfg, s, step);
    assert TasksFor(s', r) == TasksFor(s, r) by { SameTasks(cfg, s, step, r); }
    ChunkerStaysDone(cfg, s, step, r);
  }

  lemma SameTasks(cfg: Config, s: State, step: Step, r: DagRunId)
    requires Inv(cfg, s) && Enabled(cfg, s, step) && r in s.plans && !step.ListenSaveTask?
    ensures TasksFor(Apply(cfg, s, step), r) == TasksFor(s, r)
  {
    hide Inv, Enabled, Apply;
    Footprint(cfg, s, step);
    if step.PlanStart? {
      OtherPlan(cfg, s, step, r);
    }
  }

  lemma OtherPlan(cfg: Config, s: State, step: Step, r: DagRunId)
    requires Enabled(cfg, s, step) && step.PlanStart? && r in s.plans
    ensures TasksFor(Apply(cfg, s, step), r) == TasksFor(s, r)
  {
  }

  lemma ChunkerStaysDone(cfg: Config, s: State, step: Step, r: DagRunId)
    requires Inv(cfg, s) && Enabled(cfg, s, step)
    ensures PlannedDone(s.plans, s.tasks, r, 2) ==> PlannedDone(Apply(cfg, s, step).plans, Apply(cfg, s, step).tasks, r, 2)
  {
    hide Inv, Enabled, Apply;
    StepKeepsFinished(cfg, s, step);
    PlansKeepTasks(cfg, s, step);
  }

  lemma PlansKeepTasks(cfg: Config, s: State, step: Step)
    requires Enabled(cfg, s, step)
    ensures forall r :: r in s.plans ==> r in Apply(cfg, s, step).plans && Apply(cfg, s, step).plans[r].tasks == s.plans[r].tasks
  {
    hide PlannedOrigins, PumpCheckState, PumpCountState, PumpSaveRunState, PumpSaveTaskState, PumpGetDagState,
         PumpSaveDagState, PumpPublishState, ListenGetRunState, ListenSaveRunState, ListenGetTaskState, ListenCountState,
         ListenSaveTaskState, ListenFanOutState, ListenGetDagState, ListenTasksState, ListenSaveDagState;
  }

  /** Along every step the measure of a planned run never grows, and it drops whenever an attempt is dispatched or closed. */
  lemma StepMeasure(cfg: Config, s: State, s': State, r: DagRunId)
    requires Inv(cfg, s) && Next(cfg, s, s') && r in s.plans
    ensures r in s'.plans && AtMost(cfg, s', s, r)
    ensures Attempts(s', r) != Attempts(s, r) ==> Below(cfg, s', s, r)
  {
    hide Inv, Enabled, Apply, AtMost, Attempts;
    var step :| Enabled(cfg, s, step) && s' == Apply(cfg, s, step);
    PlansKeepTasks(cfg, s, step);
    MeasureOf(cfg, s, step, r);
  }

  lemma MeasureOf(cfg: Config, s: State, step: Step, r: DagRunId)
    requires Inv(cfg, s) && Enabled(cfg, s, step) && r in s.plans
    ensures var s' := Apply(cfg, s, step);
            AtMost(cfg, s', s, r) && (Attempts(s', r) != Attempts(s, r) ==> Below(cfg, s', s, r))
  {
    hide Inv, ChunkerLeft, WorkLeft, Attempts;
    if step.PumpSaveRun? || step.ListenSaveRun? {
      AttemptStepMeasure(cfg, s, step, r);
    } else if step.ListenSaveTask? {
      ResultStepMeasure(cfg, s, step.ids, r);
    } else {
      OtherStepMeasure(cfg, s, step, r);
    }
  }

  // ----- infinite executions -----

  ghost predicate IsInfiniteExecution(cfg: Config, trace: nat -> State) {
    trace(0) == INIT && forall n: nat :: Next(cfg, trace(n), trace(n + 1))
  }

  lemma {:induction false} TraceInv(cfg: Config, trace: nat -> State, n: nat)
    requires IsInfiniteExecution(cfg, trace)
    ensures Inv(cfg, trace(n))
  {
    hide Inv, Next;
    if n == 0 {
      InitInv(cfg);
    } else {
      TraceInv(cfg, trace, n - 1);
      assert Next(cfg, trace(n - 1), trace(n - 1 + 1));
      NextKeepsInv(cfg, trace(n - 1), trace(n));
    }
  }

  lemma {:induction false} TraceMeasure(cfg: Config, trace: nat -> State, r: DagRunId, i: nat, j: nat)
    requires IsInfiniteExecution(cfg, trace) && i <= j && r in trace(i).plans
    ensures r in trace(j).plans && AtMost(cfg, trace(j), trace(i), r)
    decreases j - i
  {
    hide Inv, Next;
    if i < j {
      TraceMeasure(cfg, trace, r, i, j - 1);
      TraceInv(cfg, trace, j - 1);
      assert Next(cfg, trace(j - 1), trace(j - 1 + 1));
      StepMeasure(cfg, trace(j - 1), trace(j), r);
    }
  }

  lemma {:induction false} TraceQuiet(trace: nat -> State, r: DagRunId, i: nat, j: nat)
    requires i <= j && forall n :: i <= n < j ==> Attempts(trace(n + 1), r) == Attempts(trace(n), r)
    ensures Attempts(trace(j), r) == Attempts(trace(i), r)
    decreases j - i
  {
    hide Attempts;
    if i < j {
      TraceQuiet(trace, r, i, j - 1);
      assert Attempts(trace(j - 1 + 1), r) == Attempts(trace(j - 1), r);
    }
  }

  ghost predicate SettledFrom(trace: nat -> State, r: DagRunId, n: nat) {
    forall j :: n <= j ==> Attempts(trace(j), r) == Attempts(trace(n), r)
  }

  /** In every infinite execution a planned run is dispatched only finitely often: from some time on, no attempt of
      the run is created or closed any more, although fan-out adds tasks while it lasts. */
  lemma {:induction false} RunsSettle(cfg: Config, trace: nat -> State, r: DagRunId, i: nat)
    requires IsInfiniteExecution(cfg, trace) && r in trace(i).plans
    ensures exists n :: i <= n && SettledFrom(trace, r, n)
    decreases ChunkerLeft(trace(i), r), WorkLeft(cfg, trace(i), r)
  {
    hide Inv, Next, Attempts, ChunkerLeft, WorkLeft;
    if exists j :: i <= j && Attempts(trace(j + 1), r) != Attempts(trace(j), r) {
      var j :| i <= j && Attempts(trace(j + 1), r) != Attempts(trace(j), r);
      TraceMeasure(cfg, trace, r, i, j);
      TraceInv(cfg, trace, j);
      StepMeasure(cfg, trace(j), trace(j + 1), r);
      TraceInv(cfg, trace, i);
      WorkLeftIsNatural(cfg, trace(i), r);
      RunsSettle(cfg, trace, r, j + 1);
    } else {
      forall j | i <= j ensures Attempts(trace(j), r) == Attempts(trace(i), r) {
        TraceQuiet(trace, r, i, j);
      }
      assert SettledFrom(trace, r, i);
    }
  }
}
