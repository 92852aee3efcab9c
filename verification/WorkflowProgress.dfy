/** Deadlock freedom: a run that is not finished and has no task running gets a task dispatched by the next round. */
module WorkflowProgress {
  import opened WorkflowTypes
  import opened WorkflowMachine
  import opened WorkflowInvariant
  import opened WorkflowKeeps
  import opened WorkflowSteps

  /** Run r is unfinished and none of its tasks is Running. Its plan may be half saved, and the fan-out of its chunker may
      be under way. */
  ghost predicate Stalled(s: State, r: DagRunId) {
    && DerivedStatus(s.tasks, r).Running?
    && (forall k :: k in s.tasks && s.tasks[k].dagRunId == r ==> !s.tasks[k].status.Running?)
  }

  ghost predicate ReadyNow(tasks: Tasks, r: DagRunId, k: TaskId) {
    k in tasks && tasks[k].dagRunId == r && tasks[k].status.Pending? && IsReady(tasks[k], Siblings(tasks, r))
  }

  // ----- some task is ready -----

  lemma {:induction false} LowestPendingIsReady(tasks: Tasks, r: DagRunId, k: TaskId) returns (t: TaskId)
    requires k in tasks && tasks[k].dagRunId == r && tasks[k].status.Pending?
    requires forall x :: x in tasks && tasks[x].dagRunId == r ==> tasks[x].status.Pending? || tasks[x].status.Success?
    ensures ReadyNow(tasks, r, t) && (t == k || Ordering(tasks[t].kind) < Ordering(tasks[k].kind))
    decreases Ordering(tasks[k].kind)
  {
    if exists x :: x in tasks && tasks[x].dagRunId == r && tasks[x].status.Pending? && Ordering(tasks[x].kind) < Ordering(tasks[k].kind) {
      var x :| x in tasks && tasks[x].dagRunId == r && tasks[x].status.Pending? && Ordering(tasks[x].kind) < Ordering(tasks[k].kind);
      t := LowestPendingIsReady(tasks, r, x);
    } else {
      t := k;
    }
  }

  /** A stalled run has a Pending task whose earlier stages are all done. */
  lemma StalledRunHasReadyTask(cfg: Config, s: State, r: DagRunId) returns (t: TaskId)
    requires Reachable(cfg, s) && Stalled(s, r)
    ensures ReadyNow(s.tasks, r, t)
  {
    hide Shape, ShapesOk, NumbersOk, CacheOk, CacheCovers, RequestsOk, AttemptOk, TasksOk, PlansOk, MembersOk, Reachable,
         RunsOk, DagRunsOk, MessageOk, DagReadOk, FanOutOk, OrderOk, QueueOk, ListenerOk, ReadyNow;
    ReachableInv(cfg, s);
    NothingSkipped(cfg, s);
    assert forall k :: k in s.tasks && s.tasks[k].dagRunId == r ==> !s.tasks[k].status.Failed?;
    var k :| k in s.tasks && s.tasks[k].dagRunId == r && !s.tasks[k].status.Success?;
    t := LowestPendingIsReady(s.tasks, r, k);
  }

  // ----- the round will reach it -----

  ghost predicate AttemptsClosed(tasks: Tasks, taskRuns: Runs, r: DagRunId) {
    forall q :: q in taskRuns && taskRuns[q].taskId in tasks && tasks[taskRuns[q].taskId].dagRunId == r ==>
      taskRuns[q].status.IsTerminal()
  }

  /** The listener is not between reading an open attempt of run r and having stored the attempt's task. */
  predicate ListenerAway(l: Listener, r: DagRunId) {
    (l.SaveRun? || Closing(l)) ==> l.m.dagRunId != r
  }

  lemma StalledListenerAway(cfg: Config, s: State, r: DagRunId)
    requires Inv(cfg, s) && Stalled(s, r) && AttemptsClosed(s.tasks, s.taskRuns, r)
    ensures ListenerAway(s.listener, r)
  {
    hide TasksOk, DagRunsOk, RunsOk, PlansOk, MembersOk, Shape, ShapesOk, NumbersOk, OrderOk, QueueOk, CacheOk,
         CacheCovers, DagReadOk, FanOutOk, DerivedStatus;
    if !s.listener.Idle? {
      HandledAttempt(s);
    }
  }

  lemma StalledAttemptsClosed(cfg: Config, s: State, r: DagRunId)
    requires Inv(cfg, s) && Stalled(s, r) && s.pump.pc.Idle?
    ensures AttemptsClosed(s.tasks, s.taskRuns, r)
  {
    hide Shape, NumbersOk, CacheOk, CacheCovers, TasksOk, PlansOk, MembersOk,
         DagRunsOk, DagReadOk, FanOutOk, OrderOk, QueueOk, DerivedStatus, ListenerOk, ShapesOk;
    forall q | q in s.taskRuns && s.taskRuns[q].taskId in s.tasks && s.tasks[s.taskRuns[q].taskId].dagRunId == r
      ensures s.taskRuns[q].status.IsTerminal()
    {
      var k := s.taskRuns[q].taskId;
      if !s.taskRuns[q].status.IsTerminal() {
        OpenAttemptRuns(cfg, s, q);
        ShapeAt(cfg, s, k);
        RunningAttempt(cfg, s.taskRuns, q, SettledStatus(cfg, s.tasks, s.taskRuns, s.pump.pc, s.listener, k));
        if Closing(s.listener) {
          HandledAttempt(s);
        }
      }
    }
  }

  lemma ShapeAt(cfg: Config, s: State, k: TaskId)
    requires ShapesOk(cfg, s.tasks, s.taskRuns, s.pump.pc, s.listener) && k in s.tasks
    ensures Shape(cfg, s.taskRuns, k, SettledStatus(cfg, s.tasks, s.taskRuns, s.pump.pc, s.listener, k))
  {
    hide Shape;
  }

  /** The round in progress still has task t of run r ahead of it, and run r is as it was. */
  ghost predicate Ahead(s: State, r: DagRunId, t: TaskId) {
    && AttemptsClosed(s.tasks, s.taskRuns, r) && ListenerAway(s.listener, r)
    && ReadyNow(s.tasks, r, t)
    && !s.pump.pc.Idle? && !s.pump.pc.Publish?
    && s.tasks[t] in s.pump.queue
    && (s.pump.pc.SaveTask? || HeadSaved(s.pump.pc) ==> s.pump.queue[0].dagRunId != r)
    && (r in s.pump.cache ==> IsReady(s.tasks[t], s.pump.cache[r]))
  }

  /** The step that saves a new attempt of a task of run r. */
  ghost predicate Dispatches(s: State, s': State, r: DagRunId) {
    && s.pump.pc.SaveRun? && s.pump.queue != [] && s.pump.queue[0].dagRunId == r
    && s'.taskRuns == s.taskRuns[s.pump.pc.run.id := s.pump.pc.run]
    && s.pump.pc.run.id !in s.taskRuns && s.pump.pc.run.taskId == s.pump.queue[0].id
  }

  /** Rows of other runs do not change what run r sees. */
  lemma OtherRow(tasks: Tasks, row: Task, r: DagRunId, t: TaskId)
    requires row.dagRunId != r && (row.id in tasks ==> tasks[row.id].dagRunId != r)
    requires t in tasks && tasks[t].dagRunId == r
    ensures Siblings(tasks[row.id := row], r) == Siblings(tasks, r)
    ensures tasks[row.id := row][t] == tasks[t]
  {
    assert t != row.id;
    assert Siblings(tasks[row.id := row], r) == Siblings(tasks, r);
  }

  lemma OtherRowClosed(tasks: Tasks, taskRuns: Runs, row: Task, r: DagRunId)
    requires row.dagRunId != r && (row.id in tasks ==> tasks[row.id].dagRunId != r)
    requires AttemptsClosed(tasks, taskRuns, r)
    ensures AttemptsClosed(tasks[row.id := row], taskRuns, r)
  {
  }

  /** Nor does a new row of run r whose stage is not below that of t. */
  lemma RowKeepsReady(tasks: Tasks, taskRuns: Runs, row: Task, r: DagRunId, t: TaskId)
    requires row.id !in tasks && RunsOk(tasks, taskRuns) && ReadyNow(tasks, r, t) && AttemptsClosed(tasks, taskRuns, r)
    requires row.dagRunId == r ==> Ordering(row.kind) >= Ordering(tasks[t].kind)
    ensures ReadyNow(tasks[row.id := row], r, t) && AttemptsClosed(tasks[row.id := row], taskRuns, r)
    ensures tasks[row.id := row][t] == tasks[t]
  {
    var tasks' := tasks[row.id := row];
    forall k | k in Siblings(tasks', r) && Ordering(Siblings(tasks', r)[k].kind) < Ordering(tasks[t].kind)
      ensures k in Siblings(tasks, r) && Siblings(tasks', r)[k] == Siblings(tasks, r)[k]
    {
    }
  }

  lemma AheadPlanSave(cfg: Config, s: State, run: DagRunId, r: DagRunId, t: TaskId)
    requires Inv(cfg, s) && Ahead(s, r, t) && run in s.plans && s.plans[run].saved < |s.plans[run].tasks|
    ensures Ahead(PlanSaveState(s, run), r, t)
  {
    hide TasksOk, DagRunsOk, RunsOk, PlansOk, MembersOk, Shape, ShapesOk, NumbersOk, OrderOk, QueueOk, AttemptOk, CacheOk,
         CacheCovers, RequestsOk, MessageOk, ListenerOk, DagReadOk, FanOutOk, IsReady, Siblings, AttemptsClosed;
    NextPlanned(s, run);
    LaterStageIsSafe(cfg, s, run);
    RowKeepsReady(s.tasks, s.taskRuns, s.plans[run].tasks[s.plans[run].saved], r, t);
  }

  lemma AheadPumpCheck(cfg: Config, s: State, r: DagRunId, t: TaskId)
    requires Inv(cfg, s) && Ahead(s, r, t) && s.pump.pc.Check?
    ensures Ahead(PumpCheckState(s), r, t)
  {
    hide TasksOk, DagRunsOk, RunsOk, PlansOk, MembersOk, Shape, ShapesOk, NumbersOk, OrderOk, AttemptOk, CacheOk,
         CacheCovers, RequestsOk, MessageOk, ListenerOk, DagReadOk, FanOutOk, IsReady, Siblings, AttemptsClosed, QueueOk;
    var s', h := PumpCheckState(s), s.pump.queue[0];
    HeadIsStored(s);
    assert IsReady(s.tasks[t], SiblingsUsed(s, r));
    var i :| 0 <= i < |s.pump.queue| && s.pump.queue[i] == s.tasks[t];
    if s'.pump.queue != s.pump.queue {
      assert i > 0;
      assert s'.pump.queue[i - 1] == s.tasks[t];
    }
  }

  lemma AheadPumpSaveRun(cfg: Config, s: State, r: DagRunId, t: TaskId)
    requires Inv(cfg, s) && Ahead(s, r, t) && s.pump.pc.SaveRun? && s.pump.queue != []
    ensures s.pump.queue[0].dagRunId == r ==> Dispatches(s, PumpSaveRunState(s), r)
    ensures s.pump.queue[0].dagRunId != r ==> Ahead(PumpSaveRunState(s), r, t)
  {
    hide TasksOk, DagRunsOk, RunsOk, PlansOk, MembersOk, Shape, ShapesOk, NumbersOk, OrderOk, CacheOk,
         CacheCovers, RequestsOk, MessageOk, ListenerOk, DagReadOk, FanOutOk, IsReady, Siblings, QueueOk;
    HeadIsStored(s);
  }

  lemma AheadPumpSaveTask(cfg: Config, s: State, r: DagRunId, t: TaskId)
    requires Inv(cfg, s) && Ahead(s, r, t) && s.pump.pc.SaveTask? && s.pump.queue != []
    ensures Ahead(PumpSaveTaskState(s), r, t)
  {
    hide TasksOk, DagRunsOk, RunsOk, PlansOk, MembersOk, Shape, ShapesOk, NumbersOk, OrderOk, AttemptOk, CacheOk,
         CacheCovers, RequestsOk, MessageOk, ListenerOk, DagReadOk, FanOutOk, IsReady, Siblings, AttemptsClosed, QueueOk;
    HeadIsStored(s);
    var row := s.pump.queue[0].(status := TaskStatus.Running);
    OtherRow(s.tasks, row, r, t);
    OtherRowClosed(s.tasks, s.taskRuns, row, r);
  }

  /** The head belongs to another run, so t is further back. */
  lemma AheadNextTask(s: State, s': State, r: DagRunId, t: TaskId)
    requires Ahead(s, r, t) && HeadSaved(s.pump.pc)
    requires s'.pump.pc.Check? && s'.pump.queue == s.pump.queue[1..] && s'.pump.cache == s.pump.cache
    requires s'.tasks == s.tasks && s'.taskRuns == s.taskRuns && s'.plans == s.plans && s'.listener == s.listener
    ensures Ahead(s', r, t)
  {
    hide IsReady, Siblings, AttemptsClosed;
    var i :| 0 <= i < |s.pump.queue| && s.pump.queue[i] == s.tasks[t];
    assert i > 0;
    assert s'.pump.queue[i - 1] == s.tasks[t];
  }

  lemma AheadListenGetRun(cfg: Config, s: State, r: DagRunId, t: TaskId)
    requires Inv(cfg, s) && Ahead(s, r, t) && s.listener.GetRun?
    ensures Ahead(ListenGetRunState(s), r, t)
  {
    hide TasksOk, DagRunsOk, RunsOk, PlansOk, MembersOk, Shape, ShapesOk, NumbersOk, OrderOk, AttemptOk, CacheOk,
         CacheCovers, RequestsOk, MessageOk, ListenerOk, DagReadOk, FanOutOk, IsReady, Siblings, QueueOk;
    HandledAttempt(s);
  }

  lemma AheadListenSaveRun(cfg: Config, s: State, r: DagRunId, t: TaskId)
    requires Inv(cfg, s) && Ahead(s, r, t) && s.listener.SaveRun?
    ensures Ahead(ListenSaveRunState(s), r, t)
  {
    hide TasksOk, DagRunsOk, PlansOk, MembersOk, Shape, ShapesOk, NumbersOk, OrderOk, AttemptOk, CacheOk,
         CacheCovers, RequestsOk, MessageOk, DagReadOk, FanOutOk, IsReady, Siblings, QueueOk;
    HandledAttempt(s);
  }

  lemma AheadListenSaveTask(cfg: Config, s: State, ids: seq<TaskId>, r: DagRunId, t: TaskId)
    requires Inv(cfg, s) && Ahead(s, r, t) && s.listener.SaveTask? && FanOutIds(cfg, s, s.listener.m, ids)
    ensures Ahead(ListenSaveTaskState(cfg, s, ids), r, t)
  {
    hide TasksOk, DagRunsOk, RunsOk, PlansOk, MembersOk, Shape, ShapesOk, NumbersOk, OrderOk, AttemptOk, CacheOk,
         CacheCovers, RequestsOk, MessageOk, ListenerOk, DagReadOk, FanOutOk, IsReady, Siblings, AttemptsClosed, QueueOk,
         AfterSaveTask, FanOutIds, FannedOutOrigins;
    HandledAttempt(s);
    SavedRow(cfg, s);
    OtherRow(s.tasks, s.listener.task, r, t);
    OtherRowClosed(s.tasks, s.taskRuns, s.listener.task, r);
  }

  lemma AheadListenFanOut(cfg: Config, s: State, r: DagRunId, t: TaskId)
    requires Inv(cfg, s) && Ahead(s, r, t) && s.listener.FanOut?
    ensures Ahead(ListenFanOutState(s), r, t)
  {
    hide TasksOk, DagRunsOk, RunsOk, PlansOk, MembersOk, Shape, ShapesOk, NumbersOk, OrderOk, AttemptOk, CacheOk,
         CacheCovers, RequestsOk, MessageOk, ListenerOk, DagReadOk, IsReady, Siblings, AttemptsClosed, QueueOk;
    if s.listener.rest != [] {
      NothingSkipped(cfg, s);
      if Ordering(s.tasks[t].kind) > 3 {
        ReadyAfterEmbedder(s, r, t);
      }
      RowKeepsReady(s.tasks, s.taskRuns, s.listener.rest[0], r, t);
    }
  }

  /** A ready indexer has its run's planned embedder done. */
  lemma ReadyAfterEmbedder(s: State, r: DagRunId, t: TaskId)
    requires TasksOk(s.tasks, s.plans, s.origins) && PlansOk(s.tasks, s.plans, s.origins) && MembersOk(s.tasks, s.plans)
    requires ReadyNow(s.tasks, r, t) && Ordering(s.tasks[t].kind) > 3
    requires forall k :: k in s.tasks ==> !s.tasks[k].status.Skipped?
    ensures PlannedDone(s.plans, s.tasks, r, 3)
  {
    hide PlansOk, MembersOk;
    assert Ordering(s.tasks[t].kind) == 4;
    EarlierPlannedStored(s, t, 3);
    PlanIsOk(s, r);
    var e := s.plans[r].tasks[3].id;
    assert e in Siblings(s.tasks, r) && Ordering(s.tasks[e].kind) == 3;
  }

  /** Steps that move locals, or write to dag runs and plans only. */
  lemma AheadQuietStep(cfg: Config, s: State, step: Step, r: DagRunId, t: TaskId)
    requires Ahead(s, r, t) && Enabled(cfg, s, step)
    requires step.PlanStart? || step.PumpCount? || step.Receive? || step.ListenGetTask? || step.ListenCount?
             || step.ListenGetDag? || step.ListenTasks? || step.ListenSaveDag?
    ensures Ahead(Apply(cfg, s, step), r, t)
  {
    hide IsReady, Siblings, AttemptsClosed, FreshIds, PlannedOrigins, DerivedStatus, Answers;
  }

  lemma AheadGetDag(cfg: Config, s: State, step: Step, r: DagRunId, t: TaskId)
    requires Ahead(s, r, t) && Enabled(cfg, s, step) && (step.PumpGetDag? || step.PumpSaveDag?)
    ensures Ahead(Apply(cfg, s, step), r, t)
  {
    hide IsReady, Siblings, AttemptsClosed;
    var s' := Apply(cfg, s, step);
    if s'.pump.pc.Check? {
      AheadNextTask(s, s', r, t);
    }
  }

  lemma StepStaysAhead(cfg: Config, s: State, step: Step, r: DagRunId, t: TaskId)
    requires Inv(cfg, s) && Ahead(s, r, t) && Enabled(cfg, s, step)
    ensures Ahead(Apply(cfg, s, step), r, t) || Dispatches(s, Apply(cfg, s, step), r)
  {
    hide Inv, Dispatches, ReadyNow, AttemptsClosed;
    match step
    case PlanSave(run) => AheadPlanSave(cfg, s, run, r, t);
    case PumpCheck => AheadPumpCheck(cfg, s, r, t);
    case PumpSaveRun => AheadPumpSaveRun(cfg, s, r, t);
    case PumpSaveTask => AheadPumpSaveTask(cfg, s, r, t);
    case PumpGetDag => AheadGetDag(cfg, s, step, r, t);
    case PumpSaveDag => AheadGetDag(cfg, s, step, r, t);
    case ListenGetRun => AheadListenGetRun(cfg, s, r, t);
    case ListenSaveRun => AheadListenSaveRun(cfg, s, r, t);
    case ListenSaveTask(ids) => AheadListenSaveTask(cfg, s, ids, r, t);
    case ListenFanOut => AheadListenFanOut(cfg, s, r, t);
    case PumpList(_) =>
    case PumpPublish =>
    case _ => AheadQuietStep(cfg, s, step, r, t);
  }

  /** A listing holds a task of run r that is ready. */
  ghost predicate ListsReady(tasks: Tasks, r: DagRunId, queue: seq<Task>) {
    exists t :: ReadyNow(tasks, r, t) && tasks[t] in queue
  }

  ghost predicate DispatchAt(states: seq<State>, n: nat, r: DagRunId) {
    n < |states| - 1 && Dispatches(states[n], states[n + 1], r)
  }

  /** The steps i..j are one round, up to its publishing. */
  ghost predicate IsRound(states: seq<State>, i: nat, j: nat) {
    && i + 1 < j < |states| && states[i].pump.pc.Idle? && states[i + 1].pump.pc.Check? && states[j].pump.pc.Publish?
    && forall n :: i < n <= j ==> !states[n].pump.pc.Idle?
  }

  /** However planners and the listener interleave, a round that starts while run r is stalled and lists a ready task of r
      cannot reach publishing without having dispatched a task of r. */
  lemma ListedRunIsDispatched(cfg: Config, states: seq<State>, i: nat, j: nat, r: DagRunId) returns (n: nat)
    requires IsExecution(cfg, states) && i + 1 < j < |states|
    requires Stalled(states[i], r) && states[i].pump.pc.Idle? && states[i + 1].pump.pc.Check? && states[j].pump.pc.Publish?
    requires ListsReady(states[i].tasks, r, states[i + 1].pump.queue)
    ensures i < n < j && DispatchAt(states, n, r)
  {
    hide Inv, Next, Dispatches, IsReady, Siblings, Stalled;
    ExecutionKeepsInv(cfg, states, i);
    assert Next(cfg, states[i], states[i + 1]);
    var t :| ReadyNow(states[i].tasks, r, t) && states[i].tasks[t] in states[i + 1].pump.queue;
    StalledAttemptsClosed(cfg, states[i], r);
    StalledListenerAway(cfg, states[i], r);
    RoundStarts(cfg, states[i], states[i + 1], r, t);
    n := FirstDispatch(cfg, states, i + 1, j, r, t);
  }

  lemma {:induction false} FirstDispatch(cfg: Config, states: seq<State>, i: nat, j: nat, r: DagRunId, t: TaskId) returns (n: nat)
    requires IsExecution(cfg, states) && i <= j < |states| && Ahead(states[i], r, t) && states[j].pump.pc.Publish?
    ensures i <= n < j && DispatchAt(states, n, r)
    decreases j - i
  {
    hide Inv, Enabled, Apply, Dispatches, AttemptsClosed, ReadyNow, IsReady;
    ExecutionKeepsInv(cfg, states, i);
    assert Next(cfg, states[i], states[i + 1]);
    var step :| Enabled(cfg, states[i], step) && states[i + 1] == Apply(cfg, states[i], step);
    StepStaysAhead(cfg, states[i], step, r, t);
    n := i;
    if !Dispatches(states[i], states[i + 1], r) {
      n := FirstDispatch(cfg, states, i + 1, j, r, t);
    }
  }

  // ----- and will reach nothing else -----

  /** Run r is as it was when the round in progress started in s0 with the given listing, but for new rows. */
  ghost predicate Undisturbed(s0: State, queue: seq<Task>, s: State, r: DagRunId) {
    && AttemptsClosed(s.tasks, s.taskRuns, r) && ListenerAway(s.listener, r)
    && (s.pump.pc.SaveTask? || HeadSaved(s.pump.pc) ==> s.pump.queue != [] && s.pump.queue[0].dagRunId != r)
    && RowsKept(s0.tasks, s.tasks, r) && (forall t :: t in s.pump.queue ==> t in queue)
  }

  ghost predicate RowsKept(tasks: Tasks, tasks': Tasks, r: DagRunId) {
    forall k :: k in tasks && tasks[k].dagRunId == r ==> k in tasks' && tasks'[k] == tasks[k]
  }

  /** A row that is new, or of another run. */
  lemma RowKeepsUndisturbed(s0: State, tasks: Tasks, taskRuns: Runs, row: Task, r: DagRunId)
    requires RunsOk(tasks, taskRuns) && AttemptsClosed(tasks, taskRuns, r) && RowsKept(s0.tasks, tasks, r)
    requires row.id !in tasks || (row.dagRunId != r && tasks[row.id].dagRunId != r)
    ensures AttemptsClosed(tasks[row.id := row], taskRuns, r) && RowsKept(s0.tasks, tasks[row.id := row], r)
  {
  }

  /** Until a task of run r is dispatched, a round leaves the run as it was. */
  lemma StepLeavesUndisturbed(cfg: Config, s0: State, queue: seq<Task>, s: State, step: Step, r: DagRunId)
    requires Inv(cfg, s) && Undisturbed(s0, queue, s, r) && Enabled(cfg, s, step) && !s.pump.pc.Idle?
    ensures Undisturbed(s0, queue, Apply(cfg, s, step), r) || Dispatches(s, Apply(cfg, s, step), r)
  {
    hide Inv, Dispatches, Undisturbed;
    match step
    case PlanSave(run) => UndisturbedPlanSave(cfg, s0, queue, s, run, r);
    case PumpSaveRun => UndisturbedSaveRun(cfg, s0, queue, s, r);
    case PumpSaveTask => UndisturbedSaveTask(cfg, s0, queue, s, r);
    case ListenGetRun => UndisturbedGetRun(cfg, s0, queue, s, r);
    case ListenSaveRun => UndisturbedListenSaveRun(cfg, s0, queue, s, r);
    case ListenSaveTask(ids) => UndisturbedResult(cfg, s0, queue, s, ids, r);
    case ListenFanOut => UndisturbedFanOut(cfg, s0, queue, s, r);
    case PumpList(_) =>
    case _ => UndisturbedQuiet(cfg, s0, queue, s, step, r);
  }

  lemma UndisturbedPlanSave(cfg: Config, s0: State, queue: seq<Task>, s: State, run: DagRunId, r: DagRunId)
    requires Inv(cfg, s) && Undisturbed(s0, queue, s, r) && run in s.plans && s.plans[run].saved < |s.plans[run].tasks|
    ensures Undisturbed(s0, queue, PlanSaveState(s, run), r)
  {
    hide TasksOk, DagRunsOk, RunsOk, PlansOk, MembersOk, Shape, ShapesOk, NumbersOk, OrderOk, QueueOk, AttemptOk, CacheOk,
         CacheCovers, RequestsOk, MessageOk, ListenerOk, DagReadOk, FanOutOk, AttemptsClosed, RowsKept;
    NextPlanned(s, run);
    RowKeepsUndisturbed(s0, s.tasks, s.taskRuns, s.plans[run].tasks[s.plans[run].saved], r);
  }

  lemma UndisturbedSaveRun(cfg: Config, s0: State, queue: seq<Task>, s: State, r: DagRunId)
    requires Inv(cfg, s) && Undisturbed(s0, queue, s, r) && s.pump.pc.SaveRun? && s.pump.queue != []
    ensures s.pump.queue[0].dagRunId == r ==> Dispatches(s, PumpSaveRunState(s), r)
    ensures s.pump.queue[0].dagRunId != r ==> Undisturbed(s0, queue, PumpSaveRunState(s), r)
  {
    hide TasksOk, DagRunsOk, RunsOk, PlansOk, MembersOk, Shape, ShapesOk, NumbersOk, OrderOk, CacheOk,
         CacheCovers, RequestsOk, MessageOk, ListenerOk, DagReadOk, FanOutOk, QueueOk, RowsKept;
    HeadIsStored(s);
  }

  lemma UndisturbedSaveTask(cfg: Config, s0: State, queue: seq<Task>, s: State, r: DagRunId)
    requires Inv(cfg, s) && Undisturbed(s0, queue, s, r) && s.pump.pc.SaveTask? && s.pump.queue != []
    ensures Undisturbed(s0, queue, PumpSaveTaskState(s), r)
  {
    hide TasksOk, DagRunsOk, RunsOk, PlansOk, MembersOk, Shape, ShapesOk, NumbersOk, OrderOk, AttemptOk, CacheOk,
         CacheCovers, RequestsOk, MessageOk, ListenerOk, DagReadOk, FanOutOk, QueueOk, AttemptsClosed, RowsKept;
    HeadIsStored(s);
    RowKeepsUndisturbed(s0, s.tasks, s.taskRuns, s.pump.queue[0].(status := TaskStatus.Running), r);
  }

  lemma UndisturbedGetRun(cfg: Config, s0: State, queue: seq<Task>, s: State, r: DagRunId)
    requires Inv(cfg, s) && Undisturbed(s0, queue, s, r) && s.listener.GetRun?
    ensures Undisturbed(s0, queue, ListenGetRunState(s), r)
  {
    hide TasksOk, DagRunsOk, RunsOk, PlansOk, MembersOk, Shape, ShapesOk, NumbersOk, OrderOk, AttemptOk, CacheOk,
         CacheCovers, RequestsOk, MessageOk, ListenerOk, DagReadOk, FanOutOk, QueueOk, RowsKept;
    HandledAttempt(s);
  }

  lemma UndisturbedListenSaveRun(cfg: Config, s0: State, queue: seq<Task>, s: State, r: DagRunId)
    requires Inv(cfg, s) && Undisturbed(s0, queue, s, r) && s.listener.SaveRun?
    ensures Undisturbed(s0, queue, ListenSaveRunState(s), r)
  {
    hide TasksOk, DagRunsOk, PlansOk, MembersOk, Shape, ShapesOk, NumbersOk, OrderOk, AttemptOk, CacheOk,
         CacheCovers, RequestsOk, MessageOk, DagReadOk, FanOutOk, QueueOk, RowsKept;
    HandledAttempt(s);
  }

  lemma UndisturbedResult(cfg: Config, s0: State, queue: seq<Task>, s: State, ids: seq<TaskId>, r: DagRunId)
    requires Inv(cfg, s) && Undisturbed(s0, queue, s, r) && s.listener.SaveTask? && FanOutIds(cfg, s, s.listener.m, ids)
    ensures Undisturbed(s0, queue, ListenSaveTaskState(cfg, s, ids), r)
  {
    hide TasksOk, DagRunsOk, RunsOk, PlansOk, MembersOk, Shape, ShapesOk, NumbersOk, OrderOk, AttemptOk, CacheOk,
         CacheCovers, RequestsOk, MessageOk, ListenerOk, DagReadOk, FanOutOk, QueueOk, AttemptsClosed, RowsKept,
         AfterSaveTask, FanOutIds, FannedOutOrigins;
    HandledAttempt(s);
    SavedRow(cfg, s);
    RowKeepsUndisturbed(s0, s.tasks, s.taskRuns, s.listener.task, r);
  }

  lemma UndisturbedFanOut(cfg: Config, s0: State, queue: seq<Task>, s: State, r: DagRunId)
    requires Inv(cfg, s) && Undisturbed(s0, queue, s, r) && s.listener.FanOut?
    ensures Undisturbed(s0, queue, ListenFanOutState(s), r)
  {
    hide TasksOk, DagRunsOk, RunsOk, PlansOk, MembersOk, Shape, ShapesOk, NumbersOk, OrderOk, AttemptOk, CacheOk,
         CacheCovers, RequestsOk, MessageOk, ListenerOk, DagReadOk, QueueOk, AttemptsClosed, RowsKept;
    if s.listener.rest != [] {
      RowKeepsUndisturbed(s0, s.tasks, s.taskRuns, s.listener.rest[0], r);
    }
  }

  /** Steps that write neither tasks nor attempts. */
  lemma UndisturbedQuiet(cfg: Config, s0: State, queue: seq<Task>, s: State, step: Step, r: DagRunId)
    requires Undisturbed(s0, queue, s, r) && Enabled(cfg, s, step)
    requires step.PlanStart? || step.PumpCheck? || step.PumpCount? || step.PumpGetDag? || step.PumpSaveDag? || step.PumpPublish?
             || step.Receive? || step.ListenGetTask? || step.ListenCount? || step.ListenGetDag? || step.ListenTasks?
             || step.ListenSaveDag?
    ensures Undisturbed(s0, queue, Apply(cfg, s, step), r)
  {
    hide AttemptsClosed, RowsKept, Apply, Enabled;
    Footprint(cfg, s, step);
    if step.IsPump() {
      PumpQueueShrinks(cfg, s, step);
    } else if !step.PlanStart? {
      ListenerKeepsAway(cfg, s, step, r);
    }
  }

  /** The queue is the same or loses its head, and the head is not being marked unless it was. */
  ghost predicate Shrinks(p: Pump, p': Pump) {
    && (p'.queue == p.queue || (p.queue != [] && p'.queue == p.queue[1..]) || p'.queue == [])
    && !p'.pc.SaveTask? && (HeadSaved(p'.pc) ==> HeadSaved(p.pc) && p'.queue == p.queue)
  }

  lemma PumpQueueShrinks(cfg: Config, s: State, step: Step)
    requires Enabled(cfg, s, step)
    requires step.PumpCheck? || step.PumpCount? || step.PumpGetDag? || step.PumpSaveDag? || step.PumpPublish?
    ensures Shrinks(s.pump, Apply(cfg, s, step).pump)
  {
    hide Apply, Shrinks;
    if step.PumpGetDag? || step.PumpSaveDag? {
      MarkingShrinks(cfg, s, step);
    } else {
      CheckingShrinks(cfg, s, step);
    }
  }

  lemma CheckingShrinks(cfg: Config, s: State, step: Step)
    requires Enabled(cfg, s, step) && (step.PumpCheck? || step.PumpCount? || step.PumpPublish?)
    ensures Shrinks(s.pump, Apply(cfg, s, step).pump)
  {
    hide IsReady, SiblingsUsed;
  }

  lemma MarkingShrinks(cfg: Config, s: State, step: Step)
    requires Enabled(cfg, s, step) && (step.PumpGetDag? || step.PumpSaveDag?)
    ensures Shrinks(s.pump, Apply(cfg, s, step).pump)
  {
  }

  lemma ListenerKeepsAway(cfg: Config, s: State, step: Step, r: DagRunId)
    requires Enabled(cfg, s, step) && ListenerAway(s.listener, r)
    requires step.Receive? || step.ListenGetTask? || step.ListenCount? || step.ListenGetDag? || step.ListenTasks? || step.ListenSaveDag?
    ensures ListenerAway(Apply(cfg, s, step).listener, r)
  {
    hide DerivedStatus, Answers;
  }

  /** What a round dispatches of an undisturbed run was listed and ready when the round started. */
  lemma DispatchedWasReady(cfg: Config, s0: State, queue: seq<Task>, s: State, s': State, r: DagRunId)
    requires Inv(cfg, s) && Undisturbed(s0, queue, s, r) && Dispatches(s, s', r)
    requires IsPendingList(cfg, s0.tasks, queue)
    ensures ListsReady(s0.tasks, r, queue)
  {
    hide TasksOk, DagRunsOk, RunsOk, PlansOk, MembersOk, Shape, ShapesOk, NumbersOk, CacheOk, AttemptOk,
         CacheCovers, RequestsOk, MessageOk, ListenerOk, DagReadOk, FanOutOk, QueueOk, AttemptsClosed;
    var h := s.pump.queue[0];
    HeadIsStored(s);
    assert h in queue && s0.tasks[h.id] == h && s.tasks[h.id] == h;
    assert LowerDone(s.tasks, h);
    assert ReadyNow(s0.tasks, r, h.id);
  }

  lemma {:induction false} UndisturbedUntil(cfg: Config, states: seq<State>, i: nat, n: nat, r: DagRunId)
    requires IsExecution(cfg, states) && i < n < |states| && (forall m :: i < m <= n ==> !states[m].pump.pc.Idle?)
    requires Undisturbed(states[i], states[i + 1].pump.queue, states[i + 1], r)
    requires forall m: nat :: i < m < n ==> !DispatchAt(states, m, r)
    ensures Undisturbed(states[i], states[i + 1].pump.queue, states[n], r)
    decreases n
  {
    hide Inv, Enabled, Apply, Undisturbed, Dispatches;
    if i + 1 < n {
      UndisturbedUntil(cfg, states, i, n - 1, r);
      ExecutionKeepsInv(cfg, states, n - 1);
      assert Next(cfg, states[n - 1], states[n - 1 + 1]);
      var step :| Enabled(cfg, states[n - 1], step) && states[n] == Apply(cfg, states[n - 1], step);
      StepLeavesUndisturbed(cfg, states[i], states[i + 1].pump.queue, states[n - 1], step, r);
      assert !DispatchAt(states, n - 1, r);
    }
  }

  /** A round that dispatches a task of a stalled run listed one that was ready. */
  lemma {:induction false} DispatchedRunWasListed(cfg: Config, states: seq<State>, i: nat, n: nat, r: DagRunId)
    requires IsExecution(cfg, states) && i < n < |states| && (forall m :: i < m <= n ==> !states[m].pump.pc.Idle?)
    requires Stalled(states[i], r) && states[i].pump.pc.Idle? && states[i + 1].pump.pc.Check? && DispatchAt(states, n, r)
    ensures ListsReady(states[i].tasks, r, states[i + 1].pump.queue)
    decreases n
  {
    hide Inv, Dispatches, Undisturbed, Stalled, ListsReady, Next, IsPendingList;
    if m: nat :| i < m < n && DispatchAt(states, m, r) {
      DispatchedRunWasListed(cfg, states, i, m, r);
    } else {
      ExecutionKeepsInv(cfg, states, i);
      assert Next(cfg, states[i], states[i + 1]);
      UndisturbedAtStart(cfg, states[i], states[i + 1], r);
      UndisturbedUntil(cfg, states, i, n, r);
      ExecutionKeepsInv(cfg, states, n);
      DispatchedWasReady(cfg, states[i], states[i + 1].pump.queue, states[n], states[n + 1], r);
    }
  }

  lemma UndisturbedAtStart(cfg: Config, s: State, s': State, r: DagRunId)
    requires Inv(cfg, s) && Next(cfg, s, s') && Stalled(s, r) && s.pump.pc.Idle? && s'.pump.pc.Check?
    ensures Undisturbed(s, s'.pump.queue, s', r) && IsPendingList(cfg, s.tasks, s'.pump.queue)
  {
    hide Inv, Stalled, AttemptsClosed, IsPendingList;
    StalledAttemptsClosed(cfg, s, r);
    StalledListenerAway(cfg, s, r);
    RoundListing(cfg, s, s');
  }

  /** From between rounds into a round: the listing. */
  lemma RoundListing(cfg: Config, s: State, s': State)
    requires Next(cfg, s, s') && s.pump.pc.Idle? && s'.pump.pc.Check?
    ensures IsPendingList(cfg, s.tasks, s'.pump.queue) && s' == s.(pump := Pump(PumpPc.Check, s'.pump.queue, map[], []))
  {
    hide Apply, IsPendingList, FreshIds, FanOutIds;
    var step :| Enabled(cfg, s, step) && s' == Apply(cfg, s, step);
    Footprint(cfg, s, step);
    assert step.PumpList?;
    StartedQueue(cfg, s, step.queue);
  }

  /** A round that starts while run r is stalled dispatches one of its tasks if and only if its listing holds one that is
      ready, however planners and the listener interleave. */
  lemma RoundDispatches(cfg: Config, states: seq<State>, i: nat, j: nat, r: DagRunId)
    requires IsExecution(cfg, states) && IsRound(states, i, j) && Stalled(states[i], r)
    ensures (exists n :: i < n < j && DispatchAt(states, n, r)) <==> ListsReady(states[i].tasks, r, states[i + 1].pump.queue)
  {
    hide Dispatches, Stalled, ListsReady, Next;
    if ListsReady(states[i].tasks, r, states[i + 1].pump.queue) {
      var n := ListedRunIsDispatched(cfg, states, i, j, r);
    }
    if n :| i < n < j && DispatchAt(states, n, r) {
      DispatchedRunWasListed(cfg, states, i, n, r);
    }
  }

  /** Without a batch limit every listing holds a ready task of every stalled run. */
  lemma UnlimitedListsReady(cfg: Config, s: State, s': State, r: DagRunId)
    requires Reachable(cfg, s) && Stalled(s, r) && Next(cfg, s, s') && s.pump.pc.Idle? && s'.pump.pc.Check? && cfg.maxBatch.None?
    ensures ListsReady(s.tasks, r, s'.pump.queue)
  {
    hide Reachable, Stalled, Next, IsReady, Siblings;
    var t := StalledRunHasReadyTask(cfg, s, r);
    RoundListing(cfg, s, s');
  }

  /** So it dispatches one. */
  lemma UnlimitedRoundDispatches(cfg: Config, states: seq<State>, i: nat, j: nat, r: DagRunId) returns (n: nat)
    requires IsExecution(cfg, states) && IsRound(states, i, j) && Stalled(states[i], r) && cfg.maxBatch.None?
    ensures i < n < j && DispatchAt(states, n, r)
  {
    hide Dispatches, Stalled, ListsReady, Next;
    PrefixReachable(cfg, states, i);
    assert Next(cfg, states[i], states[i + 1]);
    UnlimitedListsReady(cfg, states[i], states[i + 1], r);
    n := ListedRunIsDispatched(cfg, states, i, j, r);
  }

  lemma StartedQueue(cfg: Config, s: State, queue: seq<Task>)
    requires Enabled(cfg, s, PumpList(queue))
    ensures Apply(cfg, s, PumpList(queue)) == s.(pump := Pump(PumpPc.Check, queue, map[], []))
  {
    hide IsPendingList;
  }

  lemma PrefixReachable(cfg: Config, states: seq<State>, i: nat)
    requires IsExecution(cfg, states) && i < |states|
    ensures Reachable(cfg, states[i])
  {
    hide Next;
    var prefix := states[..i + 1];
    forall n | 0 <= n < |prefix| - 1 ensures Next(cfg, prefix[n], prefix[n + 1]) {
      assert prefix[n] == states[n] && prefix[n + 1] == states[n + 1];
    }
    assert prefix[|prefix| - 1] == states[i];
  }

  lemma RoundStarts(cfg: Config, s: State, s': State, r: DagRunId, t: TaskId)
    requires Next(cfg, s, s') && Stalled(s, r) && s.pump.pc.Idle? && AttemptsClosed(s.tasks, s.taskRuns, r) && ListenerAway(s.listener, r)
    requires ReadyNow(s.tasks, r, t) && s'.pump.pc.Check? && s.tasks[t] in s'.pump.queue
    ensures Ahead(s', r, t)
  {
    hide DerivedStatus, AttemptsClosed, IsReady, Siblings, IsPendingList, Next;
    RoundListing(cfg, s, s');
  }
}
