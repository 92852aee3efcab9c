/** The inductive invariant of the control plane, one predicate per concern. */
module WorkflowInvariant {
  import opened WorkflowTypes
  import opened WorkflowMachine

  type Tasks = map<TaskId, Task>
  type Runs = map<TaskRunId, TaskRun>
  type Plans = map<DagRunId, Plan>

  // ----- identities -----

  ghost predicate TasksOk(tasks: Tasks, plans: Plans, origins: map<TaskId, Origin>) {
    forall k :: k in tasks ==>
      tasks[k].id == k && k in origins && origins[k].run == tasks[k].dagRunId && tasks[k].dagRunId in plans
      && Ordering(tasks[k].kind) < 5
  }

  ghost predicate DagRunsOk(dagRuns: map<DagRunId, DagRun>, plans: Plans) {
    dagRuns.Keys == plans.Keys && forall r :: r in dagRuns ==> dagRuns[r].id == r
  }

  ghost predicate RunsOk(tasks: Tasks, taskRuns: Runs) {
    forall q :: q in taskRuns ==> taskRuns[q].id == q && taskRuns[q].taskId in tasks
  }

  /** Plan p of run r: five tasks in profile order, the first `saved` of them stored. */
  ghost predicate PlanOk(tasks: Tasks, origins: map<TaskId, Origin>, r: DagRunId, p: Plan) {
    && |p.tasks| == 5 && p.saved <= 5
    && forall i :: 0 <= i < 5 ==>
         && p.tasks[i].dagRunId == r && p.tasks[i].kind == PROFILE_SEQUENCE[i] && p.tasks[i].status.Pending?
         && p.tasks[i].id in origins && origins[p.tasks[i].id] == Origin.Planned(r, i)
         && (p.tasks[i].id in tasks <==> i < p.saved)
         && (i < p.saved ==> tasks[p.tasks[i].id].dagRunId == r && tasks[p.tasks[i].id].kind == PROFILE_SEQUENCE[i])
  }

  ghost predicate PlansOk(tasks: Tasks, plans: Plans, origins: map<TaskId, Origin>) {
    forall r :: r in plans ==> PlanOk(tasks, origins, r, plans[r])
  }

  /** Row `rows[plans[r].tasks[i].id]` is present and Success. */
  ghost predicate PlannedDone(plans: Plans, rows: Tasks, r: DagRunId, i: nat) {
    r in plans && i < |plans[r].tasks| && plans[r].tasks[i].id in rows && rows[plans[r].tasks[i].id].status.Success?
  }

  ghost predicate IsPlanned(plans: Plans, t: Task) {
    && t.dagRunId in plans && Ordering(t.kind) < |plans[t.dagRunId].tasks|
    && plans[t.dagRunId].tasks[Ordering(t.kind)].id == t.id
  }

  /** Every stored task was planned, or is an embedder fanned out by its run's successful chunker. */
  ghost predicate MembersOk(tasks: Tasks, plans: Plans) {
    forall k :: k in tasks ==>
      IsPlanned(plans, tasks[k]) || (tasks[k].kind == Embedder && PlannedDone(plans, tasks, tasks[k].dagRunId, 2))
  }

  // ----- attempts against task status -----

  predicate Closing(l: Listener) { l.GetTask? || l.Count? || l.SaveTask? }

  /** The status a task has once the write in flight for it is done. */
  ghost function SettledStatus(cfg: Config, tasks: Tasks, taskRuns: Runs, pc: PumpPc, l: Listener, k: TaskId): TaskStatus
    requires k in tasks
  {
    if pc.SaveTask? && pc.run.taskId == k then TaskStatus.Running
    else if Closing(l) && l.m.taskId == k then Outcome(cfg, l.m, |RunsOf(taskRuns, k)|)
    else tasks[k].status
  }

  ghost predicate AllFailed(taskRuns: Runs, runs: set<TaskRunId>) {
    forall q :: q in runs ==> q in taskRuns && taskRuns[q].status.Failed?
  }

  /** Exactly one run of the set has the given status, and the others are Failed. */
  ghost predicate OneRun(taskRuns: Runs, runs: set<TaskRunId>, status: TaskRunStatus) {
    exists q :: q in runs && q in taskRuns && taskRuns[q].status == status && AllFailed(taskRuns, runs - {q})
  }

  /** What the attempts of a task look like, given its status. */
  ghost predicate Shape(cfg: Config, taskRuns: Runs, k: TaskId, status: TaskStatus) {
    var runs := RunsOf(taskRuns, k);
    match status
    case Pending => AllFailed(taskRuns, runs) && (runs == {} || cfg.ShouldRetry(|runs|))
    case Running => OneRun(taskRuns, runs, TaskRunStatus.Running)
    case Success => OneRun(taskRuns, runs, TaskRunStatus.Success)
    case Failed => runs != {} && AllFailed(taskRuns, runs) && !cfg.ShouldRetry(|runs|)
    case Ready => false
    case Skipped => false
  }

  /** Attempt numbers are distinct and below the number of attempts, which is bounded. */
  ghost predicate NumberedIn(bound: nat, taskRuns: Runs, runs: set<TaskRunId>) {
    && |runs| <= bound
    && (forall q :: q in runs ==> q in taskRuns && taskRuns[q].attemptNo < |runs|)
    && (forall q, p :: q in runs && p in runs && q != p ==> taskRuns[q].attemptNo != taskRuns[p].attemptNo)
  }

  ghost predicate Numbered(cfg: Config, taskRuns: Runs, k: TaskId) {
    NumberedIn(cfg.MaxRuns(), taskRuns, RunsOf(taskRuns, k))
  }

  ghost predicate ShapesOk(cfg: Config, tasks: Tasks, taskRuns: Runs, pc: PumpPc, l: Listener) {
    forall k :: k in tasks ==> Shape(cfg, taskRuns, k, SettledStatus(cfg, tasks, taskRuns, pc, l, k))
  }

  ghost predicate NumbersOk(cfg: Config, tasks: Tasks, taskRuns: Runs) {
    forall k :: k in tasks ==> Numbered(cfg, taskRuns, k)
  }

  // ----- stage order -----

  /** The task that the pump has found ready and whose attempt it has not saved yet. */
  predicate Starting(pump: Pump, k: TaskId) {
    (pump.pc.Count? || pump.pc.SaveRun?) && pump.queue != [] && pump.queue[0].id == k
  }

  ghost predicate Started(taskRuns: Runs, pump: Pump, k: TaskId) {
    RunsOf(taskRuns, k) != {} || Starting(pump, k)
  }

  ghost predicate LowerDone(tasks: Tasks, t: Task) {
    forall a :: a in tasks && tasks[a].dagRunId == t.dagRunId && Ordering(tasks[a].kind) < Ordering(t.kind) ==>
      tasks[a].status.Success?
  }

  ghost predicate OrderOk(tasks: Tasks, taskRuns: Runs, pump: Pump) {
    forall k :: k in tasks && Started(taskRuns, pump, k) ==> LowerDone(tasks, tasks[k])
  }

  // ----- the pump's locals -----

  /** The pump is between its write of the head's row and the next task. */
  predicate HeadSaved(pc: PumpPc) { pc.GetDag? || pc.SaveDag? }

  ghost predicate QueueOk(tasks: Tasks, pc: PumpPc, queue: seq<Task>) {
    && (forall i, j :: 0 <= i < j < |queue| ==> queue[i].id != queue[j].id)
    && (forall i :: 0 <= i < |queue| ==>
          && queue[i].id in tasks
          && tasks[queue[i].id].dagRunId == queue[i].dagRunId && tasks[queue[i].id].kind == queue[i].kind
          && (i > 0 || !HeadSaved(pc) ==> tasks[queue[i].id] == queue[i] && queue[i].status.Pending?))
    && (pc.Idle? || pc.Publish? ==> queue == [])
    && (pc.Count? || pc.SaveRun? || pc.SaveTask? || HeadSaved(pc) ==> queue != [])
    && (pc.SaveDag? ==> pc.dag.id == queue[0].dagRunId)
  }

  ghost predicate AttemptOk(taskRuns: Runs, sent: set<ReadyTask>, pc: PumpPc, queue: seq<Task>) {
    && (pc.SaveRun? ==>
          && queue != []
          && pc.run == NewRun(queue[0], pc.run.id, |RunsOf(taskRuns, queue[0].id)|) && pc.run.id !in taskRuns)
    && (pc.SaveTask? || HeadSaved(pc) ==>
          && queue != []
          && pc.run.taskId == queue[0].id
          && pc.run.id in taskRuns && taskRuns[pc.run.id] == pc.run && pc.run.status.Running?
          && forall rt :: rt in sent ==> rt.taskRunId != pc.run.id)
  }

  ghost predicate CacheOk(tasks: Tasks, plans: Plans, cache: map<DagRunId, Tasks>) {
    forall r :: r in cache ==>
      && r in plans
      && (forall k :: k in cache[r] ==>
            && k in tasks && tasks[k].dagRunId == r && tasks[k].kind == cache[r][k].kind && !cache[r][k].status.Skipped?
            && (cache[r][k].status.Success? ==> tasks[k].status.Success?))
      && (PlannedDone(plans, cache[r], r, 3) ==>
            forall k :: k in tasks && tasks[k].dagRunId == r && tasks[k].kind == Embedder ==> k in cache[r])
  }

  /** A cached listing holds every planned task of a lower stage than a queued task of that run. */
  ghost predicate CacheCovers(plans: Plans, queue: seq<Task>, cache: map<DagRunId, Tasks>) {
    forall i, j ::
      (0 <= i < |queue| && queue[i].dagRunId in cache && queue[i].dagRunId in plans
       && 0 <= j < Ordering(queue[i].kind) && j < |plans[queue[i].dagRunId].tasks|)
      ==> plans[queue[i].dagRunId].tasks[j].id in cache[queue[i].dagRunId]
  }

  // ----- requests and the listener's locals -----

  ghost predicate RequestOk(tasks: Tasks, taskRuns: Runs, rt: ReadyTask) {
    && rt.taskRunId in taskRuns && taskRuns[rt.taskRunId].taskId == rt.taskId
    && rt.taskId in tasks && tasks[rt.taskId].dagRunId == rt.dagRunId && tasks[rt.taskId].kind == rt.kind
  }

  ghost predicate RequestsOk(tasks: Tasks, taskRuns: Runs, sent: set<ReadyTask>, ready: seq<ReadyTask>) {
    && (forall rt :: rt in sent ==> RequestOk(tasks, taskRuns, rt))
    && (forall rt :: rt in ready ==> RequestOk(tasks, taskRuns, rt))
  }

  ghost predicate AnswersSent(sent: set<ReadyTask>, m: WorkerStatus) {
    exists rt :: rt in sent && Answers(m, rt)
  }

  ghost predicate MessageOk(sent: set<ReadyTask>, l: Listener) {
    !l.Idle? ==> AnswersSent(sent, l.m)
  }

  ghost predicate ListenerOk(cfg: Config, tasks: Tasks, taskRuns: Runs, l: Listener) {
    && (l.SaveRun? ==>
          l.m.taskRunId in taskRuns && taskRuns[l.m.taskRunId].status.Running?
          && l.run == ClosedRun(l.m, taskRuns[l.m.taskRunId]))
    && (Closing(l) ==>
          && l.m.taskRunId in taskRuns && taskRuns[l.m.taskRunId].status.IsTerminal()
          && l.m.taskId in tasks && tasks[l.m.taskId].status.Running?)
    && (l.Count? ==> l.m.Failed? && l.task == tasks[l.m.taskId])
    && (l.SaveTask? ==> l.task == ClosedTask(cfg, l.m, |RunsOf(taskRuns, l.m.taskId)|, tasks[l.m.taskId]))
  }

  ghost predicate DagReadOk(dagRuns: map<DagRunId, DagRun>, l: Listener) {
    l.ListTasks? || l.SaveDag? ==> l.m.dagRunId in dagRuns && l.dag.id == l.m.dagRunId
  }

  /** While a chunker's fan-out is being saved: its rows are new, and the planned embedder is not done. */
  ghost predicate FanOutOk(tasks: Tasks, plans: Plans, origins: map<TaskId, Origin>, l: Listener) {
    l.FanOut? ==>
      var r, rest := l.m.dagRunId, l.rest;
      && PlannedDone(plans, tasks, r, 2) && !PlannedDone(plans, tasks, r, 3)
      && (forall i :: 0 <= i < |rest| ==>
            && rest[i].id !in tasks && rest[i].id in origins && origins[rest[i].id] == Origin.FannedOut(r)
            && rest[i].kind == Embedder && rest[i].dagRunId == r && rest[i].status.Pending?)
      && (forall i, j :: 0 <= i < j < |rest| ==> rest[i].id != rest[j].id)
  }

  ghost predicate Inv(cfg: Config, s: State) {
    && TasksOk(s.tasks, s.plans, s.origins)
    && DagRunsOk(s.dagRuns, s.plans)
    && RunsOk(s.tasks, s.taskRuns)
    && PlansOk(s.tasks, s.plans, s.origins)
    && MembersOk(s.tasks, s.plans)
    && ShapesOk(cfg, s.tasks, s.taskRuns, s.pump.pc, s.listener)
    && NumbersOk(cfg, s.tasks, s.taskRuns)
    && OrderOk(s.tasks, s.taskRuns, s.pump)
    && QueueOk(s.tasks, s.pump.pc, s.pump.queue)
    && AttemptOk(s.taskRuns, s.sent, s.pump.pc, s.pump.queue)
    && CacheOk(s.tasks, s.plans, s.pump.cache)
    && CacheCovers(s.plans, s.pump.queue, s.pump.cache)
    && RequestsOk(s.tasks, s.taskRuns, s.sent, s.pump.ready)
    && MessageOk(s.sent, s.listener)
    && ListenerOk(cfg, s.tasks, s.taskRuns, s.listener)
    && DagReadOk(s.dagRuns, s.listener)
    && FanOutOk(s.tasks, s.plans, s.origins, s.listener)
  }

  lemma InitInv(cfg: Config)
    ensures Inv(cfg, INIT)
  {
  }
}
