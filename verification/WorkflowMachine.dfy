/**
  The control plane as a step machine. Any number of `create_dag_run` calls, one pump
  (`pump_requests`) and one status listener run concurrently; each repository call is one step,
  so every interleaving of the three is an execution. Worker results arrive in any order, any number
  of times or never.
*/
module WorkflowMachine {
  import opened Wrappers
  import opened WorkflowTypes
  import Json

  /** A `create_dag_run` call: its task vector and how many of the tasks it has saved. */
  datatype Plan = Plan(tasks: seq<Task>, saved: nat)

  /** Where a generated task id came from. */
  datatype Origin = Planned(run: DagRunId, index: nat) | FannedOut(run: DagRunId)

  datatype PumpPc =
    | Idle
    | Check                          // loop head: list the siblings if not cached, test readiness
    | Count                          // list the attempts of the task
    | SaveRun(run: TaskRun)
    | SaveTask(run: TaskRun)
    | GetDag(run: TaskRun)
    | SaveDag(run: TaskRun, dag: DagRun)
    | Publish

  /** The pump's locals: queue[0] is the task being processed. */
  datatype Pump = Pump(pc: PumpPc, queue: seq<Task>, cache: map<DagRunId, map<TaskId, Task>>, ready: seq<ReadyTask>)

  datatype Listener =
    | Idle
    | GetRun(m: WorkerStatus)
    | SaveRun(m: WorkerStatus, run: TaskRun)
    | GetTask(m: WorkerStatus)
    | Count(m: WorkerStatus, task: Task)
    | SaveTask(m: WorkerStatus, task: Task)
    | FanOut(m: WorkerStatus, rest: seq<Task>)
    | GetDag(m: WorkerStatus)
    | ListTasks(m: WorkerStatus, dag: DagRun)
    | SaveDag(m: WorkerStatus, dag: DagRun)

  datatype State = State(
    dagRuns: map<DagRunId, DagRun>,
    tasks: map<TaskId, Task>,
    taskRuns: map<TaskRunId, TaskRun>,
    sent: set<ReadyTask>,             // requests published so far
    plans: map<DagRunId, Plan>,
    origins: map<TaskId, Origin>,     // task ids generated so far
    early: set<DagRunId>,             // history: runs dispatched from before their plan was fully saved
    late: set<DagRunId>,              // history: runs that got a planned task, not listed since, when they counted as done
    pump: Pump,
    listener: Listener)

  const IDLE_PUMP := Pump(PumpPc.Idle, [], map[], [])

  const INIT := State(map[], map[], map[], {}, map[], map[], {}, {}, IDLE_PUMP, Listener.Idle)

  /** `dag_status_from_tasks` over the stored rows of a run. */
  ghost function DerivedStatus(tasks: map<TaskId, Task>, run: DagRunId): DagRunStatus {
    if exists k :: k in tasks && tasks[k].dagRunId == run && tasks[k].status.Failed? then DagRunStatus.Failed
    else if forall k :: k in tasks && tasks[k].dagRunId == run ==> tasks[k].status.Success? || tasks[k].status.Skipped?
    then DagRunStatus.Success
    else DagRunStatus.Running
  }

  /** What `list_pending(max_batch)` returns: pending rows in id order, cut to the batch size. */
  ghost predicate IsPendingList(cfg: Config, tasks: map<TaskId, Task>, queue: seq<Task>) {
    && (forall i :: 0 <= i < |queue| ==>
          queue[i].id in tasks && tasks[queue[i].id] == queue[i] && queue[i].status.Pending?)
    && (forall i, j :: 0 <= i < j < |queue| ==> queue[i].id < queue[j].id)
    && (cfg.maxBatch.Some? ==> |queue| <= cfg.maxBatch.value)
    && (cfg.maxBatch.None? || |queue| < cfg.maxBatch.value ==>
          forall k :: k in tasks && tasks[k].status.Pending? ==> tasks[k] in queue)
    && (cfg.maxBatch.Some? ==>
          forall k, i :: k in tasks && tasks[k].status.Pending? && tasks[k] !in queue && 0 <= i < |queue| ==>
            queue[i].id < k)
  }

  /** m answers request rt; only a chunker's output lists chunk sets. */
  predicate Answers(m: WorkerStatus, rt: ReadyTask) {
    && m.dagRunId == rt.dagRunId && m.taskId == rt.taskId && m.taskRunId == rt.taskRunId
    && (m.Success? && ChunkSets(m.output).Some? ==> rt.kind == Chunker)
  }

  /** A result that will add tasks. */
  predicate FansOut(cfg: Config, m: WorkerStatus) {
    m.Success? && ChunkSets(m.output).Some? && ParsedUuids(cfg, ChunkSets(m.output).value) != []
  }

  function Requested(task: Task, run: TaskRun): ReadyTask {
    ReadyTask(task.tenantId, task.dagRunId, task.id, run.id, task.kind, task.payload)
  }

  function NewRun(task: Task, id: TaskRunId, attemptNo: nat): TaskRun {
    TaskRun(id, task.id, task.tenantId, TaskRunStatus.Running, attemptNo, None)
  }

  // Steps carry the choices the environment makes: fresh ids, the order of equal listings, and messages.
  datatype Step =
    | PlanStart(run: DagRunId, tenant: TenantId, input: Json.Value, ids: seq<TaskId>)
    | PlanSave(run: DagRunId)
    | PumpList(queue: seq<Task>)
    | PumpCheck
    | PumpCount(newId: TaskRunId)
    | PumpSaveRun
    | PumpSaveTask
    | PumpGetDag
    | PumpSaveDag
    | PumpPublish
    | Receive(rt: ReadyTask, m: WorkerStatus)
    | ListenGetRun
    | ListenSaveRun
    | ListenGetTask
    | ListenCount
    | ListenSaveTask(ids: seq<TaskId>)
    | ListenFanOut
    | ListenGetDag
    | ListenTasks
    | ListenSaveDag
  {
    predicate IsPump() {
      PumpList? || PumpCheck? || PumpCount? || PumpSaveRun? || PumpSaveTask? || PumpGetDag? || PumpSaveDag? || PumpPublish?
    }
  }

  /** Whose repository calls a step belongs to. */
  datatype Actor = Planner | PumpLoop | ListenLoop

  function ActorOf(step: Step): Actor {
    if step.PlanStart? || step.PlanSave? then Planner else if step.IsPump() then PumpLoop else ListenLoop
  }

  ghost predicate FreshIds(s: State, ids: seq<TaskId>) {
    && (forall i :: 0 <= i < |ids| ==> ids[i] !in s.origins)
    && (forall i, j :: 0 <= i < j < |ids| ==> ids[i] != ids[j])
  }

  /** The ids of a plan's tasks, by position. */
  ghost function PlannedOrigins(ids: seq<TaskId>, run: DagRunId): map<TaskId, Origin> {
    map x | x in ids :: Origin.Planned(run, Position(ids, x))
  }

  ghost function Position(ids: seq<TaskId>, x: TaskId): (i: nat)
    requires x in ids
    ensures i < |ids| && ids[i] == x
  {
    if ids[0] == x then 0 else 1 + Position(ids[1..], x)
  }

  ghost function FannedOutOrigins(ids: seq<TaskId>, run: DagRunId): map<TaskId, Origin> {
    map x | x in ids :: Origin.FannedOut(run)
  }

  /** The tasks a handled success creates, given the new ids. */
  ghost predicate FanOutIds(cfg: Config, s: State, m: WorkerStatus, ids: seq<TaskId>) {
    if m.Success? && ChunkSets(m.output).Some?
    then FreshIds(s, ids) && |ids| == |ParsedUuids(cfg, ChunkSets(m.output).value)|
    else ids == []
  }

  ghost predicate Enabled(cfg: Config, s: State, step: Step) {
    match step
    case PlanStart(run, _, _, ids) =>
      run !in s.plans && run !in s.dagRuns && |ids| == 5 && FreshIds(s, ids)
    case PlanSave(run) => run in s.plans && s.plans[run].saved < |s.plans[run].tasks|
    case PumpList(queue) => s.pump.pc.Idle? && IsPendingList(cfg, s.tasks, queue)
    case PumpCheck => s.pump.pc.Check?
    case PumpCount(newId) => s.pump.pc.Count? && s.pump.queue != [] && newId !in s.taskRuns
    case PumpSaveRun => s.pump.pc.SaveRun? && s.pump.queue != []
    case PumpSaveTask => s.pump.pc.SaveTask? && s.pump.queue != []
    case PumpGetDag => s.pump.pc.GetDag? && s.pump.queue != []
    case PumpSaveDag => s.pump.pc.SaveDag? && s.pump.queue != []
    case PumpPublish => s.pump.pc.Publish?
    case Receive(rt, m) => s.listener.Idle? && rt in s.sent && Answers(m, rt)
    case ListenGetRun => s.listener.GetRun?
    case ListenSaveRun => s.listener.SaveRun?
    case ListenGetTask => s.listener.GetTask?
    case ListenCount => s.listener.Count?
    case ListenSaveTask(ids) => s.listener.SaveTask? && FanOutIds(cfg, s, s.listener.m, ids)
    case ListenFanOut => s.listener.FanOut?
    case ListenGetDag => s.listener.GetDag?
    case ListenTasks => s.listener.ListTasks?
    case ListenSaveDag => s.listener.SaveDag?
  }

  // ----- create_dag_run -----

  ghost function PlanStartState(s: State, run: DagRunId, tenant: TenantId, input: Json.Value, ids: seq<TaskId>): (s': State)
    requires |ids| == 5
    ensures s' == s.(dagRuns := s'.dagRuns, plans := s'.plans, origins := s'.origins)
  {
    s.(dagRuns := s.dagRuns[run := DagRun(run, tenant, DagRunStatus.Created, input)],
       plans := s.plans[run := Plan(PlannedTasks(ids, run, tenant, input), 0)],
       origins := s.origins + PlannedOrigins(ids, run))
  }

  /** The run is stored as Success, or the listener is about to replace its status by Success. */
  predicate CountsAsDone(dagRuns: map<DagRunId, DagRun>, l: Listener, r: DagRunId) {
    if l.SaveDag? && l.m.dagRunId == r then l.dag.status.Success? else r in dagRuns && dagRuns[r].status.Success?
  }

  ghost function PlanSaveState(s: State, run: DagRunId): (s': State)
    requires run in s.plans && s.plans[run].saved < |s.plans[run].tasks|
    ensures s' == s.(tasks := s'.tasks, plans := s'.plans, late := s'.late)
  {
    var p := s.plans[run];
    s.(tasks := s.tasks[p.tasks[p.saved].id := p.tasks[p.saved]],
       plans := s.plans[run := p.(saved := p.saved + 1)],
       late := if CountsAsDone(s.dagRuns, s.listener, run) then s.late + {run} else s.late)
  }

  // ----- pump_requests / schedule_ready_tasks -----

  /** The sibling listing used for the head of the queue: cached, unless missing or empty. */
  function SiblingsUsed(s: State, run: DagRunId): map<TaskId, Task> {
    if run in s.pump.cache && s.pump.cache[run] != map[] then s.pump.cache[run] else Siblings(s.tasks, run)
  }

  ghost function PumpCheckState(s: State): (s': State)
    ensures s' == s.(pump := s'.pump)
  {
    if s.pump.queue == [] then s.(pump := s.pump.(pc := PumpPc.Publish))
    else
      var task := s.pump.queue[0];
      var siblings := SiblingsUsed(s, task.dagRunId);
      var pump := s.pump.(cache := s.pump.cache[task.dagRunId := siblings]);
      s.(pump := if IsReady(task, siblings) then pump.(pc := PumpPc.Count) else pump.(queue := pump.queue[1..]))
  }

  ghost function PumpCountState(s: State, newId: TaskRunId): (s': State)
    requires s.pump.queue != []
    ensures s' == s.(pump := s'.pump)
  {
    var task := s.pump.queue[0];
    s.(pump := s.pump.(pc := PumpPc.SaveRun(NewRun(task, newId, |RunsOf(s.taskRuns, task.id)|))))
  }

  ghost function PumpSaveRunState(s: State): (s': State)
    requires s.pump.pc.SaveRun? && s.pump.queue != []
    ensures s' == s.(taskRuns := s'.taskRuns, early := s'.early, pump := s'.pump)
  {
    var run, r := s.pump.pc.run, s.pump.queue[0].dagRunId;
    s.(taskRuns := s.taskRuns[run.id := run],
       early := if r in s.plans && s.plans[r].saved < |s.plans[r].tasks| then s.early + {r} else s.early,
       pump := s.pump.(pc := PumpPc.SaveTask(run)))
  }

  ghost function PumpSaveTaskState(s: State): (s': State)
    requires s.pump.pc.SaveTask? && s.pump.queue != []
    ensures s' == s.(tasks := s'.tasks, pump := s'.pump)
  {
    var task := s.pump.queue[0];
    s.(tasks := s.tasks[task.id := task.(status := TaskStatus.Running)],
       pump := s.pump.(pc := PumpPc.GetDag(s.pump.pc.run)))
  }

  /** The head has been dispatched: record it and go on with the rest of the queue. */
  function Dispatched(pump: Pump, run: TaskRun): Pump
    requires pump.queue != []
  {
    pump.(pc := PumpPc.Check, queue := pump.queue[1..], ready := pump.ready + [Requested(pump.queue[0], run)])
  }

  ghost function PumpGetDagState(s: State): (s': State)
    requires s.pump.pc.GetDag? && s.pump.queue != []
    ensures s' == s.(pump := s'.pump)
  {
    var run, r := s.pump.pc.run, s.pump.queue[0].dagRunId;
    if r in s.dagRuns && s.dagRuns[r].status.Created?
    then s.(pump := s.pump.(pc := PumpPc.SaveDag(run, s.dagRuns[r].(status := DagRunStatus.Running))))
    else s.(pump := Dispatched(s.pump, run))
  }

  ghost function PumpSaveDagState(s: State): (s': State)
    requires s.pump.pc.SaveDag? && s.pump.queue != []
    ensures s' == s.(dagRuns := s'.dagRuns, pump := s'.pump)
  {
    s.(dagRuns := s.dagRuns[s.pump.pc.dag.id := s.pump.pc.dag], pump := Dispatched(s.pump, s.pump.pc.run))
  }

  ghost function PumpPublishState(s: State): (s': State)
    ensures s' == s.(sent := s'.sent, pump := s'.pump)
  {
    if s.pump.ready == [] then s.(pump := IDLE_PUMP)
    else s.(sent := s.sent + {s.pump.ready[0]}, pump := s.pump.(ready := s.pump.ready[1..]))
  }

  // ----- listen_worker_statuses / handle_worker_status -----

  ghost function ListenGetRunState(s: State): (s': State)
    requires s.listener.GetRun?
    ensures s' == s.(listener := s'.listener)
  {
    var m := s.listener.m;
    if m.taskRunId !in s.taskRuns || s.taskRuns[m.taskRunId].status.IsTerminal()
    then s.(listener := Listener.Idle)
    else s.(listener := Listener.SaveRun(m, ClosedRun(m, s.taskRuns[m.taskRunId])))
  }

  ghost function ListenSaveRunState(s: State): (s': State)
    requires s.listener.SaveRun?
    ensures s' == s.(taskRuns := s'.taskRuns, listener := s'.listener)
  {
    s.(taskRuns := s.taskRuns[s.listener.run.id := s.listener.run], listener := Listener.GetTask(s.listener.m))
  }

  ghost function ListenGetTaskState(cfg: Config, s: State): (s': State)
    requires s.listener.GetTask?
    ensures s' == s.(listener := s'.listener)
  {
    var m := s.listener.m;
    if m.taskId !in s.tasks then s.(listener := if m.Success? then Listener.Idle else Listener.GetDag(m))
    else if m.Success? then s.(listener := Listener.SaveTask(m, ClosedTask(cfg, m, 0, s.tasks[m.taskId])))
    else s.(listener := Listener.Count(m, s.tasks[m.taskId]))
  }

  ghost function ListenCountState(cfg: Config, s: State): (s': State)
    requires s.listener.Count?
    ensures s' == s.(listener := s'.listener)
  {
    var m := s.listener.m;
    s.(listener := Listener.SaveTask(m, ClosedTask(cfg, m, |RunsOf(s.taskRuns, m.taskId)|, s.listener.task)))
  }

  ghost function ListenSaveTaskState(cfg: Config, s: State, ids: seq<TaskId>): (s': State)
    requires s.listener.SaveTask? && FanOutIds(cfg, s, s.listener.m, ids)
    ensures s' == s.(tasks := s'.tasks, origins := s'.origins, listener := s'.listener)
  {
    var m, task := s.listener.m, s.listener.task;
    s.(tasks := s.tasks[task.id := task],
       origins := s.origins + FannedOutOrigins(ids, m.dagRunId),
       listener := AfterSaveTask(cfg, s, m, task.tenantId, ids))
  }

  ghost function AfterSaveTask(cfg: Config, s: State, m: WorkerStatus, tenant: TenantId, ids: seq<TaskId>): (l: Listener)
    requires FanOutIds(cfg, s, m, ids)
    ensures (l.FanOut? || l.GetDag?) && l.m == m
  {
    if m.Success? && ChunkSets(m.output).Some?
    then Listener.FanOut(m, EmbedTasks(ParsedUuids(cfg, ChunkSets(m.output).value), ids, m.dagRunId, tenant))
    else Listener.GetDag(m)
  }

  ghost function ListenFanOutState(s: State): (s': State)
    requires s.listener.FanOut?
    ensures s' == s.(tasks := s'.tasks, listener := s'.listener)
  {
    var m, rest := s.listener.m, s.listener.rest;
    if rest == [] then s.(listener := Listener.GetDag(m))
    else s.(tasks := s.tasks[rest[0].id := rest[0]], listener := Listener.FanOut(m, rest[1..]))
  }

  ghost function ListenGetDagState(s: State): (s': State)
    requires s.listener.GetDag?
    ensures s' == s.(listener := s'.listener)
  {
    var m := s.listener.m;
    s.(listener := if m.dagRunId in s.dagRuns then Listener.ListTasks(m, s.dagRuns[m.dagRunId]) else Listener.Idle)
  }

  ghost function ListenTasksState(s: State): (s': State)
    requires s.listener.ListTasks?
    ensures s' == s.(late := s'.late, listener := s'.listener)
  {
    var m, dag := s.listener.m, s.listener.dag;
    var status := DerivedStatus(s.tasks, m.dagRunId);
    s.(late := s.late - {m.dagRunId},
       listener := if status != dag.status then Listener.SaveDag(m, dag.(status := status)) else Listener.Idle)
  }

  ghost function ListenSaveDagState(s: State): (s': State)
    requires s.listener.SaveDag?
    ensures s' == s.(dagRuns := s'.dagRuns, listener := s'.listener)
  {
    s.(dagRuns := s.dagRuns[s.listener.dag.id := s.listener.dag], listener := Listener.Idle)
  }

  ghost function Apply(cfg: Config, s: State, step: Step): State
    requires Enabled(cfg, s, step)
  {
    match step
    case PlanStart(run, tenant, input, ids) => PlanStartState(s, run, tenant, input, ids)
    case PlanSave(run) => PlanSaveState(s, run)
    case PumpList(queue) => s.(pump := Pump(PumpPc.Check, queue, map[], []))
    case PumpCheck => PumpCheckState(s)
    case PumpCount(newId) => PumpCountState(s, newId)
    case PumpSaveRun => PumpSaveRunState(s)
    case PumpSaveTask => PumpSaveTaskState(s)
    case PumpGetDag => PumpGetDagState(s)
    case PumpSaveDag => PumpSaveDagState(s)
    case PumpPublish => PumpPublishState(s)
    case Receive(_, m) => s.(listener := Listener.GetRun(m))
    case ListenGetRun => ListenGetRunState(s)
    case ListenSaveRun => ListenSaveRunState(s)
    case ListenGetTask => ListenGetTaskState(cfg, s)
    case ListenCount => ListenCountState(cfg, s)
    case ListenSaveTask(ids) => ListenSaveTaskState(cfg, s, ids)
    case ListenFanOut => ListenFanOutState(s)
    case ListenGetDag => ListenGetDagState(s)
    case ListenTasks => ListenTasksState(s)
    case ListenSaveDag => ListenSaveDagState(s)
  }

  // ----- the steps as equations -----

  lemma PumpSteps(cfg: Config, s: State)
    ensures s.pump.pc.Check? ==> Enabled(cfg, s, PumpCheck) && Apply(cfg, s, PumpCheck) == PumpCheckState(s)
    ensures s.pump.pc.Publish? ==> Enabled(cfg, s, PumpPublish) && Apply(cfg, s, PumpPublish) == PumpPublishState(s)
    ensures s.pump.queue != [] ==>
              && (s.pump.pc.Count? ==> forall id :: id !in s.taskRuns ==>
                    Enabled(cfg, s, PumpCount(id)) && Apply(cfg, s, PumpCount(id)) == PumpCountState(s, id))
              && (s.pump.pc.SaveRun? ==> Enabled(cfg, s, PumpSaveRun) && Apply(cfg, s, PumpSaveRun) == PumpSaveRunState(s))
              && (s.pump.pc.SaveTask? ==> Enabled(cfg, s, PumpSaveTask) && Apply(cfg, s, PumpSaveTask) == PumpSaveTaskState(s))
              && (s.pump.pc.GetDag? ==> Enabled(cfg, s, PumpGetDag) && Apply(cfg, s, PumpGetDag) == PumpGetDagState(s))
              && (s.pump.pc.SaveDag? ==> Enabled(cfg, s, PumpSaveDag) && Apply(cfg, s, PumpSaveDag) == PumpSaveDagState(s))
  {
    hide PumpCheckState, PumpCountState, PumpSaveRunState, PumpSaveTaskState, PumpGetDagState, PumpSaveDagState,
         PumpPublishState;
  }

  lemma PumpListStep(cfg: Config, s: State, queue: seq<Task>) returns (s': State)
    requires s.pump.pc.Idle? && IsPendingList(cfg, s.tasks, queue)
    ensures Enabled(cfg, s, PumpList(queue)) && Apply(cfg, s, PumpList(queue)) == s'
    ensures s' == s.(pump := Pump(PumpPc.Check, queue, map[], []))
  {
    hide IsPendingList;
    s' := s.(pump := Pump(PumpPc.Check, queue, map[], []));
  }

  lemma ListenSteps(cfg: Config, s: State)
    ensures s.listener.GetRun? ==> Enabled(cfg, s, ListenGetRun) && Apply(cfg, s, ListenGetRun) == ListenGetRunState(s)
    ensures s.listener.SaveRun? ==> Enabled(cfg, s, ListenSaveRun) && Apply(cfg, s, ListenSaveRun) == ListenSaveRunState(s)
    ensures s.listener.GetTask? ==> Enabled(cfg, s, ListenGetTask) && Apply(cfg, s, ListenGetTask) == ListenGetTaskState(cfg, s)
    ensures s.listener.Count? ==> Enabled(cfg, s, ListenCount) && Apply(cfg, s, ListenCount) == ListenCountState(cfg, s)
    ensures s.listener.FanOut? ==> Enabled(cfg, s, ListenFanOut) && Apply(cfg, s, ListenFanOut) == ListenFanOutState(s)
    ensures s.listener.GetDag? ==> Enabled(cfg, s, ListenGetDag) && Apply(cfg, s, ListenGetDag) == ListenGetDagState(s)
    ensures s.listener.ListTasks? ==> Enabled(cfg, s, ListenTasks) && Apply(cfg, s, ListenTasks) == ListenTasksState(s)
    ensures s.listener.SaveDag? ==> Enabled(cfg, s, ListenSaveDag) && Apply(cfg, s, ListenSaveDag) == ListenSaveDagState(s)
  {
    hide ListenGetRunState, ListenSaveRunState, ListenGetTaskState, ListenCountState, ListenFanOutState, ListenGetDagState,
         ListenTasksState, ListenSaveDagState;
  }

  lemma ListenSaveTaskStep(cfg: Config, s: State, ids: seq<TaskId>) returns (s': State)
    requires s.listener.SaveTask? && FanOutIds(cfg, s, s.listener.m, ids)
    ensures Enabled(cfg, s, ListenSaveTask(ids)) && Apply(cfg, s, ListenSaveTask(ids)) == s'
    ensures s' == s.(tasks := s.tasks[s.listener.task.id := s.listener.task],
                     origins := s.origins + FannedOutOrigins(ids, s.listener.m.dagRunId),
                     listener := AfterSaveTask(cfg, s, s.listener.m, s.listener.task.tenantId, ids))
  {
    hide FanOutIds, AfterSaveTask, FannedOutOrigins;
    s' := ListenSaveTaskState(cfg, s, ids);
  }

  /** Which repository each step may write, and whose locals it moves. */
  ghost predicate Within(s: State, s': State, step: Step) {
    && (!step.PlanSave? && !step.PumpSaveTask? && !step.ListenSaveTask? && !step.ListenFanOut? ==> s'.tasks == s.tasks)
    && (!step.PumpSaveRun? && !step.ListenSaveRun? ==> s'.taskRuns == s.taskRuns)
    && (!step.PlanStart? && !step.PumpSaveDag? && !step.ListenSaveDag? ==> s'.dagRuns == s.dagRuns)
    && (!step.PlanStart? && !step.PlanSave? ==> s'.plans == s.plans)
    && (!step.PlanStart? && !step.ListenSaveTask? ==> s'.origins == s.origins)
    && (!step.PumpPublish? ==> s'.sent == s.sent)
    && (!step.PumpSaveRun? ==> s'.early == s.early)
    && (!step.PlanSave? && !step.ListenTasks? ==> s'.late == s.late)
    && (!step.IsPump() ==> s'.pump == s.pump)
    && (step.IsPump() || step.PlanStart? || step.PlanSave? ==> s'.listener == s.listener)
  }

  lemma Footprint(cfg: Config, s: State, step: Step)
    requires Enabled(cfg, s, step)
    ensures Within(s, Apply(cfg, s, step), step)
  {
    hide PlanStartState, PlanSaveState, PumpCheckState, PumpCountState, PumpSaveRunState, PumpSaveTaskState, PumpGetDagState,
         PumpSaveDagState, PumpPublishState, ListenGetRunState, ListenSaveRunState, ListenGetTaskState, ListenCountState,
         ListenSaveTaskState, ListenFanOutState, ListenGetDagState, ListenTasksState, ListenSaveDagState;
  }

  ghost predicate Ascending(tasks: seq<Task>) { forall i, j :: 0 <= i < j < |tasks| ==> tasks[i].id < tasks[j].id }

  /** Task ids are time-ordered: a step's new ones are larger than all before, and ascend in the order of a plan's tasks and of
      a fan-out's. Reachable states do not presuppose it; the laws that need it say so. */
  ghost predicate InOrder(s: State, s': State) {
    && (forall k, k' :: k in s.origins && k' in s'.origins && k' !in s.origins ==> k < k')
    && (forall r :: r in s'.plans && r !in s.plans ==> Ascending(s'.plans[r].tasks))
    && (s'.listener.FanOut? && !s.listener.FanOut? ==> Ascending(s'.listener.rest))
  }

  ghost predicate Next(cfg: Config, s: State, s': State) {
    exists step :: Enabled(cfg, s, step) && s' == Apply(cfg, s, step)
  }

  ghost predicate Moves(cfg: Config, s: State, s': State, actor: Actor) {
    exists step :: ActorOf(step) == actor && Enabled(cfg, s, step) && s' == Apply(cfg, s, step)
  }

  /** A stretch of execution in which only one actor moves. */
  ghost predicate IsPath(cfg: Config, path: seq<State>, actor: Actor) {
    |path| > 0 && forall i :: 0 <= i < |path| - 1 ==> Moves(cfg, path[i], path[i + 1], actor)
  }

  /** An execution from the empty store, one state after each step. */
  ghost predicate IsExecution(cfg: Config, states: seq<State>) {
    && |states| > 0
    && states[0] == INIT
    && forall i :: 0 <= i < |states| - 1 ==> Next(cfg, states[i], states[i + 1])
  }

  ghost predicate Reachable(cfg: Config, s: State) {
    exists states :: IsExecution(cfg, states) && states[|states| - 1] == s
  }

  /** A step from a reachable state leads to a reachable state. */
  lemma Extend(cfg: Config, s: State, step: Step)
    requires Reachable(cfg, s) && Enabled(cfg, s, step)
    ensures Reachable(cfg, Apply(cfg, s, step))
  {
    hide Enabled, Apply;
    var states :| IsExecution(cfg, states) && states[|states| - 1] == s;
    var longer := states + [Apply(cfg, s, step)];
    assert Next(cfg, s, Apply(cfg, s, step));
    assert IsExecution(cfg, longer);
  }
}
