/**
  What tasks and requests carry: the run's input, nothing, or a chunk set. Results are stored as they were sent, and a run gets one
  embedder for each chunk set that its chunker's stored result lists.
*/
module WorkflowPayload {
  import opened Wrappers
  import opened WorkflowTypes
  import opened WorkflowMachine
  import opened WorkflowInvariant
  import opened WorkflowKeeps
  import opened WorkflowSteps
  import opened WorkflowSafety
  import opened WorkflowTermination
  import opened WorkflowCrowding
  import Json

  // ----- the invariant -----

  type DagRuns = map<DagRunId, DagRun>

  predicate SameRun(d: DagRun, e: DagRun) { d.tenantId == e.tenantId && d.params == e.params }

  predicate SameTask(t: Task, u: Task) {
    t.id == u.id && t.dagRunId == u.dagRunId && t.tenantId == u.tenantId && t.kind == u.kind && t.payload == u.payload
  }

  /** The run's input for the extractor, nothing for the other planned stages. */
  ghost predicate RowCarries(plans: Plans, dagRuns: DagRuns, t: Task) {
    && t.dagRunId in dagRuns && t.tenantId == dagRuns[t.dagRunId].tenantId
    && (IsPlanned(plans, t) ==> t.payload == if t.kind.Extractor? then dagRuns[t.dagRunId].params else Json.Null)
  }

  ghost predicate RowsCarry(tasks: Tasks, plans: Plans, dagRuns: DagRuns) {
    forall k :: k in tasks ==> RowCarries(plans, dagRuns, tasks[k])
  }

  ghost predicate PlansCarry(plans: Plans, dagRuns: DagRuns) {
    forall r, i :: r in plans && 0 <= i < |plans[r].tasks| ==> RowCarries(plans, dagRuns, plans[r].tasks[i])
  }

  ghost predicate QueueCarries(tasks: Tasks, queue: seq<Task>) {
    forall t :: t in queue ==> t.id in tasks && SameTask(t, tasks[t.id])
  }

  predicate AskCarries(tasks: Tasks, rt: ReadyTask) {
    rt.taskId in tasks && rt.payload == tasks[rt.taskId].payload && rt.tenantId == tasks[rt.taskId].tenantId
  }

  ghost predicate AsksCarry(tasks: Tasks, sent: set<ReadyTask>, ready: seq<ReadyTask>) {
    (forall rt :: rt in sent ==> AskCarries(tasks, rt)) && (forall rt :: rt in ready ==> AskCarries(tasks, rt))
  }

  /** The run rows in hand, and the rows about to be fanned out. */
  ghost predicate HandsCarry(dagRuns: DagRuns, pc: PumpPc, l: Listener) {
    && (pc.SaveDag? ==> pc.dag.id in dagRuns && SameRun(pc.dag, dagRuns[pc.dag.id]))
    && (l.ListTasks? || l.SaveDag? ==> l.dag.id in dagRuns && SameRun(l.dag, dagRuns[l.dag.id]))
    && (l.FanOut? ==> l.m.dagRunId in dagRuns && forall t :: t in l.rest ==> t.tenantId == dagRuns[l.m.dagRunId].tenantId)
  }

  ghost predicate Carries(s: State) {
    && RowsCarry(s.tasks, s.plans, s.dagRuns) && PlansCarry(s.plans, s.dagRuns) && QueueCarries(s.tasks, s.pump.queue)
    && AsksCarry(s.tasks, s.sent, s.pump.ready) && HandsCarry(s.dagRuns, s.pump.pc, s.listener)
  }

  // ----- rows keep what they carry -----

  ghost predicate RunsStay(dagRuns: DagRuns, dagRuns': DagRuns) {
    forall r :: r in dagRuns ==> r in dagRuns' && SameRun(dagRuns[r], dagRuns'[r])
  }

  ghost predicate RowsStay(tasks: Tasks, tasks': Tasks) {
    forall k :: k in tasks ==> k in tasks' && SameTask(tasks[k], tasks'[k])
  }

  lemma StepKeepsRuns(cfg: Config, s: State, step: Step)
    requires Enabled(cfg, s, step) && HandsCarry(s.dagRuns, s.pump.pc, s.listener)
    ensures RunsStay(s.dagRuns, Apply(cfg, s, step).dagRuns)
  {
    hide Apply, Enabled;
    Footprint(cfg, s, step);
    match step
    case PlanStart(run, tenant, input, ids) => NewRunIsNew(cfg, s, run, tenant, input, ids);
    case PumpSaveDag => MarkKeepsRuns(cfg, s);
    case ListenSaveDag => RefreshKeepsRuns(cfg, s);
    case _ =>
  }

  lemma NewRunIsNew(cfg: Config, s: State, run: DagRunId, tenant: TenantId, input: Json.Value, ids: seq<TaskId>)
    requires Enabled(cfg, s, PlanStart(run, tenant, input, ids))
    ensures run !in s.dagRuns && run !in s.plans && |ids| == 5 && FreshIds(s, ids)
    ensures var s' := Apply(cfg, s, PlanStart(run, tenant, input, ids));
            && s'.dagRuns == s.dagRuns[run := DagRun(run, tenant, DagRunStatus.Created, input)]
            && s'.plans == s.plans[run := Plan(PlannedTasks(ids, run, tenant, input), 0)]
  {
    hide FreshIds, PlannedTasks, PlannedOrigins;
  }

  lemma MarkKeepsRuns(cfg: Config, s: State)
    requires Enabled(cfg, s, PumpSaveDag) && HandsCarry(s.dagRuns, s.pump.pc, s.listener)
    ensures RunsStay(s.dagRuns, Apply(cfg, s, PumpSaveDag).dagRuns)
  {
  }

  lemma RefreshKeepsRuns(cfg: Config, s: State)
    requires Enabled(cfg, s, ListenSaveDag) && HandsCarry(s.dagRuns, s.pump.pc, s.listener)
    ensures RunsStay(s.dagRuns, Apply(cfg, s, ListenSaveDag).dagRuns)
  {
  }

  lemma StepKeepsRows(cfg: Config, s: State, step: Step)
    requires Inv(cfg, s) && Enabled(cfg, s, step)
    ensures RowsStay(s.tasks, Apply(cfg, s, step).tasks)
  {
    hide TasksOk, DagRunsOk, RunsOk, PlansOk, MembersOk, Shape, ShapesOk, NumbersOk, OrderOk, AttemptOk, CacheOk,
         CacheCovers, RequestsOk, MessageOk, ListenerOk, DagReadOk, FanOutOk, QueueOk, Apply, Enabled, FanOutIds;
    Footprint(cfg, s, step);
    match step
    case PlanSave(run) =>
      StepGuards(cfg, s, step);
      SavesNext(cfg, s, run);
      NextPlanned(s, run);
    case PumpSaveTask =>
      StepGuards(cfg, s, step);
      PumpSteps(cfg, s);
      HeadIsStored(s);
    case ListenSaveTask(ids) =>
      StepGuards(cfg, s, step);
      ResultWrites(cfg, s, ids);
      ResultRowStays(cfg, s);
    case ListenFanOut =>
      StepGuards(cfg, s, step);
      ListenSteps(cfg, s);
      NextFanned(s);
    case _ =>
  }

  lemma ResultRowStays(cfg: Config, s: State)
    requires s.listener.SaveTask? && ListenerOk(cfg, s.tasks, s.taskRuns, s.listener) && TasksOk(s.tasks, s.plans, s.origins)
    ensures var t := s.listener.task; t.id in s.tasks && SameTask(t, s.tasks[t.id]) && t.id == s.listener.m.taskId
  {
  }

  lemma NextFanned(s: State)
    requires s.listener.FanOut? && FanOutOk(s.tasks, s.plans, s.origins, s.listener)
    ensures s.listener.rest != [] ==> s.listener.rest[0].id !in s.tasks
  {
  }

  lemma SameTaskSamePlace(plans: Plans, plans': Plans, t: Task, t': Task)
    requires SameTask(t, t') && t.dagRunId in plans
    requires forall r :: r in plans ==> r in plans' && plans'[r].tasks == plans[r].tasks
    ensures IsPlanned(plans', t') == IsPlanned(plans, t)
  {
  }

  // ----- every step keeps it -----

  lemma StepKeepsCarries(cfg: Config, s: State, step: Step)
    requires Inv(cfg, s) && Enabled(cfg, s, step) && Carries(s)
    ensures Carries(Apply(cfg, s, step))
  {
    hide Inv, Enabled, Apply, RowsCarry, PlansCarry, QueueCarries, AsksCarry, HandsCarry, RunsStay, RowsStay;
    StepKeepsRuns(cfg, s, step);
    StepKeepsRows(cfg, s, step);
    StepKeepsPlans(cfg, s, step);
    StepKeepsAllRows(cfg, s, step);
    StepKeepsQueue(cfg, s, step);
    StepKeepsAsks(cfg, s, step);
    StepKeepsHands(cfg, s, step);
  }

  lemma StepKeepsPlans(cfg: Config, s: State, step: Step)
    requires Inv(cfg, s) && Enabled(cfg, s, step) && PlansCarry(s.plans, s.dagRuns)
    requires RunsStay(s.dagRuns, Apply(cfg, s, step).dagRuns)
    ensures PlansCarry(Apply(cfg, s, step).plans, Apply(cfg, s, step).dagRuns)
  {
    hide Inv, Enabled, Apply, IsPlanned;
    var s' := Apply(cfg, s, step);
    PlansKeepTasks(cfg, s, step);
    forall r, i | r in s'.plans && 0 <= i < |s'.plans[r].tasks| ensures RowCarries(s'.plans, s'.dagRuns, s'.plans[r].tasks[i]) {
      if r in s.plans {
        PlanRunIs(cfg, s, r, i);
        SameTaskSamePlace(s.plans, s'.plans, s.plans[r].tasks[i], s'.plans[r].tasks[i]);
      } else {
        NewPlanCarries(cfg, s, step, r, i);
      }
    }
  }

  lemma PlanRunIs(cfg: Config, s: State, r: DagRunId, i: nat)
    requires Inv(cfg, s) && r in s.plans && i < |s.plans[r].tasks|
    ensures s.plans[r].tasks[i].dagRunId == r
  {
    hide TasksOk, DagRunsOk, RunsOk, MembersOk, Shape, ShapesOk, NumbersOk, OrderOk, AttemptOk, CacheOk,
         CacheCovers, RequestsOk, MessageOk, ListenerOk, DagReadOk, FanOutOk, QueueOk;
    assert PlanOk(s.tasks, s.origins, r, s.plans[r]);
  }

  lemma NewPlanCarries(cfg: Config, s: State, step: Step, r: DagRunId, i: nat)
    requires Enabled(cfg, s, step) && r !in s.plans && r in Apply(cfg, s, step).plans && i < |Apply(cfg, s, step).plans[r].tasks|
    ensures var s' := Apply(cfg, s, step); RowCarries(s'.plans, s'.dagRuns, s'.plans[r].tasks[i])
  {
    hide Enabled, Apply;
    Footprint(cfg, s, step);
    match step
    case PlanStart(run, tenant, input, ids) => NewRunIsNew(cfg, s, run, tenant, input, ids);
    case PlanSave(run) => PlansKeepTasksOnSave(cfg, s, run);
    case _ =>
  }

  lemma PlansKeepTasksOnSave(cfg: Config, s: State, run: DagRunId)
    requires Enabled(cfg, s, PlanSave(run))
    ensures Apply(cfg, s, PlanSave(run)).plans.Keys == s.plans.Keys
  {
  }

  lemma StepKeepsAllRows(cfg: Config, s: State, step: Step)
    requires Inv(cfg, s) && Enabled(cfg, s, step) && RowsCarry(s.tasks, s.plans, s.dagRuns) && PlansCarry(s.plans, s.dagRuns)
    requires HandsCarry(s.dagRuns, s.pump.pc, s.listener)
    requires RunsStay(s.dagRuns, Apply(cfg, s, step).dagRuns) && RowsStay(s.tasks, Apply(cfg, s, step).tasks)
    ensures RowsCarry(Apply(cfg, s, step).tasks, Apply(cfg, s, step).plans, Apply(cfg, s, step).dagRuns)
  {
    hide Inv, Enabled, Apply, IsPlanned, HandsCarry;
    var s' := Apply(cfg, s, step);
    PlansKeepTasks(cfg, s, step);
    forall k | k in s'.tasks ensures RowCarries(s'.plans, s'.dagRuns, s'.tasks[k]) {
      if k in s.tasks {
        RowRun(cfg, s, k);
        SameTaskSamePlace(s.plans, s'.plans, s.tasks[k], s'.tasks[k]);
      } else {
        NewRowCarries(cfg, s, step, k);
      }
    }
  }

  lemma RowRun(cfg: Config, s: State, k: TaskId)
    requires Inv(cfg, s) && k in s.tasks
    ensures s.tasks[k].dagRunId in s.plans && s.tasks[k].id == k
  {
    hide DagRunsOk, RunsOk, PlansOk, MembersOk, Shape, ShapesOk, NumbersOk, OrderOk, AttemptOk, CacheOk,
         CacheCovers, RequestsOk, MessageOk, ListenerOk, DagReadOk, FanOutOk, QueueOk;
  }

  lemma NewRowCarries(cfg: Config, s: State, step: Step, k: TaskId)
    requires Inv(cfg, s) && Enabled(cfg, s, step) && PlansCarry(s.plans, s.dagRuns) && HandsCarry(s.dagRuns, s.pump.pc, s.listener)
    requires k !in s.tasks && k in Apply(cfg, s, step).tasks
    ensures var s' := Apply(cfg, s, step); RowCarries(s'.plans, s'.dagRuns, s'.tasks[k])
  {
    hide TasksOk, DagRunsOk, RunsOk, PlansOk, MembersOk, Shape, ShapesOk, NumbersOk, OrderOk, AttemptOk, CacheOk,
         CacheCovers, RequestsOk, MessageOk, ListenerOk, DagReadOk, FanOutOk, QueueOk, Apply, Enabled, FanOutIds, IsPlanned;
    Footprint(cfg, s, step);
    match step
    case PlanSave(run) =>
      StepGuards(cfg, s, step);
      SavesNext(cfg, s, run);
      NextPlanned(s, run);
      var t := s.plans[run].tasks[s.plans[run].saved];
      PlansKeepTasks(cfg, s, step);
      SameTaskSamePlace(s.plans, Apply(cfg, s, step).plans, t, t);
    case PumpSaveTask =>
      StepGuards(cfg, s, step);
      PumpSteps(cfg, s);
      HeadIsStored(s);
    case ListenSaveTask(ids) =>
      StepGuards(cfg, s, step);
      ResultWrites(cfg, s, ids);
      ResultRowStays(cfg, s);
    case ListenFanOut =>
      StepGuards(cfg, s, step);
      ListenSteps(cfg, s);
      FannedIsNotPlanned(s);
    case _ =>
  }

  /** A row about to be fanned out has the id of none that was planned. */
  lemma FannedIsNotPlanned(s: State)
    requires s.listener.FanOut? && FanOutOk(s.tasks, s.plans, s.origins, s.listener) && PlansOk(s.tasks, s.plans, s.origins)
    ensures s.listener.rest != [] ==>
              s.listener.rest[0].dagRunId == s.listener.m.dagRunId && !IsPlanned(s.plans, s.listener.rest[0])
  {
  }

  lemma StepKeepsQueue(cfg: Config, s: State, step: Step)
    requires Inv(cfg, s) && Enabled(cfg, s, step) && QueueCarries(s.tasks, s.pump.queue)
    requires RowsStay(s.tasks, Apply(cfg, s, step).tasks)
    ensures QueueCarries(Apply(cfg, s, step).tasks, Apply(cfg, s, step).pump.queue)
  {
    hide Inv, Enabled, Apply;
    Footprint(cfg, s, step);
    match step
    case PumpList(queue) => ListedCarries(cfg, s, queue);
    case PumpSaveTask =>
      StepGuards(cfg, s, step);
      PumpSteps(cfg, s);
    case _ =>
      if step.IsPump() {
        PumpShrinks(cfg, s, step);
      }
  }

  lemma ListedCarries(cfg: Config, s: State, queue: seq<Task>)
    requires Enabled(cfg, s, PumpList(queue))
    ensures var s' := Apply(cfg, s, PumpList(queue)); s'.pump.queue == queue && QueueCarries(s.tasks, queue)
  {
  }

  lemma StepKeepsAsks(cfg: Config, s: State, step: Step)
    requires Enabled(cfg, s, step) && QueueCarries(s.tasks, s.pump.queue) && AsksCarry(s.tasks, s.sent, s.pump.ready)
    requires RowsStay(s.tasks, Apply(cfg, s, step).tasks)
    ensures var s' := Apply(cfg, s, step); AsksCarry(s'.tasks, s'.sent, s'.pump.ready)
  {
    hide Enabled, Apply, QueueCarries;
    Footprint(cfg, s, step);
    if step.IsPump() {
      NewAsks(cfg, s, step);
    }
  }

  lemma NewAsks(cfg: Config, s: State, step: Step)
    requires Enabled(cfg, s, step) && step.IsPump() && QueueCarries(s.tasks, s.pump.queue)
    ensures var s' := Apply(cfg, s, step);
            && (forall rt :: rt in s'.sent ==> rt in s.sent || rt in s.pump.ready)
            && (forall rt :: rt in s'.pump.ready ==> rt in s.pump.ready || AskCarries(s.tasks, rt))
  {
    hide IsPendingList, IsReady, SiblingsUsed;
    var s' := Apply(cfg, s, step);
    if (step.PumpGetDag? || step.PumpSaveDag?) && s'.pump.pc.Check? {
      assert s'.pump.ready == s.pump.ready + [Requested(s.pump.queue[0], s.pump.pc.run)];
      assert s.pump.queue[0] in s.pump.queue;
    }
  }

  lemma StepKeepsHands(cfg: Config, s: State, step: Step)
    requires Inv(cfg, s) && Enabled(cfg, s, step) && HandsCarry(s.dagRuns, s.pump.pc, s.listener) && RowsCarry(s.tasks, s.plans, s.dagRuns)
    requires RunsStay(s.dagRuns, Apply(cfg, s, step).dagRuns)
    ensures var s' := Apply(cfg, s, step); HandsCarry(s'.dagRuns, s'.pump.pc, s'.listener)
  {
    hide Inv, Enabled, Apply, RowsCarry;
    Footprint(cfg, s, step);
    if step.IsPump() {
      PumpHand(cfg, s, step);
    } else if step.ListenSaveTask? {
      FanOutHand(cfg, s, step);
    } else if !step.PlanStart? && !step.PlanSave? {
      ListenHand(cfg, s, step);
    }
  }

  lemma PumpHand(cfg: Config, s: State, step: Step)
    requires Inv(cfg, s) && Enabled(cfg, s, step) && step.IsPump()
    ensures var s' := Apply(cfg, s, step);
            s'.pump.pc.SaveDag? ==> s'.pump.pc.dag.id in s.dagRuns && SameRun(s'.pump.pc.dag, s.dagRuns[s'.pump.pc.dag.id])
  {
    hide TasksOk, RunsOk, PlansOk, MembersOk, Shape, ShapesOk, NumbersOk, OrderOk, AttemptOk, CacheOk,
         CacheCovers, RequestsOk, MessageOk, ListenerOk, DagReadOk, FanOutOk, QueueOk, IsPendingList, IsReady, SiblingsUsed;
  }

  lemma ListenHand(cfg: Config, s: State, step: Step)
    requires Inv(cfg, s) && Enabled(cfg, s, step) && HandsCarry(s.dagRuns, s.pump.pc, s.listener)
    requires !step.IsPump() && !step.PlanStart? && !step.PlanSave? && !step.ListenSaveTask?
    ensures HandsCarry(s.dagRuns, s.pump.pc, Apply(cfg, s, step).listener)
  {
    hide TasksOk, RunsOk, PlansOk, MembersOk, Shape, ShapesOk, NumbersOk, OrderOk, AttemptOk, CacheOk,
         CacheCovers, RequestsOk, MessageOk, ListenerOk, FanOutOk, QueueOk, DerivedStatus, Answers, Inv;
    RunIds(cfg, s);
  }

  lemma RunIds(cfg: Config, s: State)
    requires Inv(cfg, s)
    ensures forall r :: r in s.dagRuns ==> s.dagRuns[r].id == r
  {
  }

  lemma FanOutHand(cfg: Config, s: State, step: Step)
    requires Inv(cfg, s) && Enabled(cfg, s, step) && step.ListenSaveTask? && RowsCarry(s.tasks, s.plans, s.dagRuns)
    ensures var l := Apply(cfg, s, step).listener;
            && (l.FanOut? || l.GetDag?)
            && (l.FanOut? ==> l.m.dagRunId in s.dagRuns && forall t :: t in l.rest ==> t.tenantId == s.dagRuns[l.m.dagRunId].tenantId)
  {
    hide TasksOk, RunsOk, PlansOk, MembersOk, Shape, ShapesOk, NumbersOk, OrderOk, CacheOk, DagRunsOk, DagReadOk,
         CacheCovers, RequestsOk, MessageOk, FanOutOk, QueueOk, AttemptOk, ListenerOk, Apply, Enabled, FanOutIds, IsPlanned;
    StepGuards(cfg, s, step);
    HandledAttempt(s);
    ResultRowStays(cfg, s);
    AfterResult(cfg, s, step.ids);
  }

  lemma AfterResult(cfg: Config, s: State, ids: seq<TaskId>)
    requires s.listener.SaveTask? && FanOutIds(cfg, s, s.listener.m, ids)
    ensures Enabled(cfg, s, ListenSaveTask(ids))
    ensures var l := Apply(cfg, s, ListenSaveTask(ids)).listener;
            && (l.FanOut? || l.GetDag?) && l.m == s.listener.m
            && (l.FanOut? ==> forall t :: t in l.rest ==> t.tenantId == s.listener.task.tenantId)
  {
    hide Enabled, Apply, ParsedUuids, ChunkSets;
    var s' := ListenSaveTaskStep(cfg, s, ids);
  }

  // ----- the fan-out of a run -----

  predicate IsChunkSetOf(payload: Json.Value, uuid: string) {
    payload == Json.Object([Json.Entry("chunk_set_id", Json.String(uuid))])
  }

  /** The rows of the run that are still to be saved. */
  function RestOf(l: Listener, r: DagRunId): seq<Task> { if l.FanOut? && l.m.dagRunId == r then l.rest else [] }

  /** Task k is the run's embedder for the uuid: stored, and fanned out. */
  ghost predicate FannedFor(tasks: Tasks, plans: Plans, r: DagRunId, k: TaskId, uuid: string) {
    IsFanned(tasks, plans, r, k) && IsChunkSetOf(tasks[k].payload, uuid)
  }

  /** The fanned-out tasks of the run, in the order of the uuids: the stored ones, then those still to be saved. */
  ghost predicate FannedAs(tasks: Tasks, plans: Plans, rest: seq<Task>, r: DagRunId, ids: seq<TaskId>, uuids: seq<string>) {
    && |ids| == |uuids| && |rest| <= |ids|
    && (forall i, j :: 0 <= i < j < |ids| ==> ids[i] != ids[j])
    && (forall i :: 0 <= i < |ids| - |rest| ==> FannedFor(tasks, plans, r, ids[i], uuids[i]))
    && (forall i :: 0 <= i < |rest| ==> rest[i].id == ids[|ids| - |rest| + i] && IsChunkSetOf(rest[i].payload, uuids[|ids| - |rest| + i]))
    && (forall k :: IsFanned(tasks, plans, r, k) ==> k in ids)
  }

  ghost predicate ChunkerDone(tasks: Tasks, plans: Plans, r: DagRunId) { PlannedDone(plans, tasks, r, 2) }

  ghost function ChunkerOutput(tasks: Tasks, plans: Plans, r: DagRunId): Option<Json.Value>
    requires ChunkerDone(tasks, plans, r)
  {
    tasks[plans[r].tasks[2].id].result
  }

  ghost predicate FanOutOf(cfg: Config, tasks: Tasks, plans: Plans, l: Listener, r: DagRunId) {
    ChunkerDone(tasks, plans, r) ==>
      exists ids :: FannedAs(tasks, plans, RestOf(l, r), r, ids, ListedUuids(cfg, ChunkerOutput(tasks, plans, r)))
  }

  ghost predicate FanOuts(cfg: Config, tasks: Tasks, plans: Plans, l: Listener) {
    forall r :: r in plans ==> FanOutOf(cfg, tasks, plans, l, r)
  }

  /** What the fan-out of run r is made of does not change. */
  ghost predicate SameFan(tasks: Tasks, tasks': Tasks, plans: Plans, plans': Plans, r: DagRunId) {
    && (ChunkerDone(tasks', plans', r) ==>
          ChunkerDone(tasks, plans, r) && ChunkerOutput(tasks', plans', r) == ChunkerOutput(tasks, plans, r))
    && (forall k :: IsFanned(tasks', plans', r, k) <==> IsFanned(tasks, plans, r, k))
    && (forall k :: IsFanned(tasks', plans', r, k) && IsFanned(tasks, plans, r, k) ==> tasks'[k].payload == tasks[k].payload)
  }

  lemma SameFanKeeps(cfg: Config, tasks: Tasks, tasks': Tasks, plans: Plans, plans': Plans, l: Listener, l': Listener, r: DagRunId)
    requires FanOutOf(cfg, tasks, plans, l, r) && SameFan(tasks, tasks', plans, plans', r) && RestOf(l', r) == RestOf(l, r)
    ensures FanOutOf(cfg, tasks', plans', l', r)
  {
    hide IsFanned, ChunkerDone, ChunkerOutput, ListedUuids, RestOf, IsChunkSetOf;
    if ChunkerDone(tasks', plans', r) {
      var uuids := ListedUuids(cfg, ChunkerOutput(tasks, plans, r));
      var ids :| FannedAs(tasks, plans, RestOf(l, r), r, ids, uuids);
      assert FannedAs(tasks', plans', RestOf(l', r), r, ids, uuids);
    }
  }

  lemma StepKeepsFanOuts(cfg: Config, s: State, step: Step)
    requires Inv(cfg, s) && Enabled(cfg, s, step) && FanOuts(cfg, s.tasks, s.plans, s.listener)
    ensures var s' := Apply(cfg, s, step); FanOuts(cfg, s'.tasks, s'.plans, s'.listener)
  {
    hide Inv, Enabled, Apply, FanOutOf, SameFan, RestOf, IsFanned, ChunkerDone;
    var s' := Apply(cfg, s, step);
    forall r | r in s'.plans ensures FanOutOf(cfg, s'.tasks, s'.plans, s'.listener, r) {
      if r !in s.plans {
        NewRunHasNoFan(cfg, s, step, r);
      } else if step.ListenSaveTask? && SavesChunker(s, r) {
        ChunkerFansOut(cfg, s, step, r);
      } else if step.ListenFanOut? && RestOf(s.listener, r) != [] {
        FanOutSavesOne(cfg, s, r);
      } else {
        OtherFan(cfg, s, step, r);
        SameFanKeeps(cfg, s.tasks, s'.tasks, s.plans, s'.plans, s.listener, s'.listener, r);
      }
    }
  }

  /** The listener is about to write the chunker's row of run r. */
  ghost predicate SavesChunker(s: State, r: DagRunId) {
    && s.listener.SaveTask? && r in s.plans && |s.plans[r].tasks| == 5
    && s.listener.m.taskId == s.plans[r].tasks[2].id && s.listener.m.Success?
  }

  lemma NewRunHasNoFan(cfg: Config, s: State, step: Step, r: DagRunId)
    requires Inv(cfg, s) && Enabled(cfg, s, step) && r !in s.plans && r in Apply(cfg, s, step).plans
    ensures var s' := Apply(cfg, s, step); FanOutOf(cfg, s'.tasks, s'.plans, s'.listener, r)
  {
    hide Inv, Enabled, Apply, FannedAs;
    Footprint(cfg, s, step);
    match step
    case PlanStart(run, tenant, input, ids) =>
      NewRunIsNew(cfg, s, run, tenant, input, ids);
      FreshAreNotStored(cfg, s, ids);
    case PlanSave(run) => PlansKeepTasksOnSave(cfg, s, run);
    case _ =>
  }

  lemma FreshAreNotStored(cfg: Config, s: State, ids: seq<TaskId>)
    requires Inv(cfg, s) && FreshIds(s, ids)
    ensures forall i :: 0 <= i < |ids| ==> ids[i] !in s.tasks
  {
    hide DagRunsOk, RunsOk, PlansOk, MembersOk, Shape, ShapesOk, NumbersOk, OrderOk, AttemptOk, CacheOk,
         CacheCovers, RequestsOk, MessageOk, ListenerOk, DagReadOk, FanOutOk, QueueOk;
  }

  // ----- a step that leaves the fan-out of a run alone -----

  lemma OtherFan(cfg: Config, s: State, step: Step, r: DagRunId)
    requires Inv(cfg, s) && Enabled(cfg, s, step) && r in s.plans
    requires !(step.ListenSaveTask? && SavesChunker(s, r)) && !(step.ListenFanOut? && RestOf(s.listener, r) != [])
    ensures var s' := Apply(cfg, s, step);
            SameFan(s.tasks, s'.tasks, s.plans, s'.plans, r) && RestOf(s'.listener, r) == RestOf(s.listener, r)
  {
    hide Inv, Enabled, Apply, RestOf, IsPlanned, RowsStay, ChunkerDone, SavesChunker;
    var s' := Apply(cfg, s, step);
    PlansKeepTasks(cfg, s, step);
    StepKeepsRows(cfg, s, step);
    forall k ensures IsFanned(s'.tasks, s'.plans, r, k) <==> IsFanned(s.tasks, s.plans, r, k) {
      SameFanned(cfg, s, step, r, k);
    }
    forall k | IsFanned(s'.tasks, s'.plans, r, k) && IsFanned(s.tasks, s.plans, r, k) ensures s'.tasks[k].payload == s.tasks[k].payload {
      RowStays(s.tasks, s'.tasks, k);
    }
    SameChunker(cfg, s, step, r);
    SameRest(cfg, s, step, r);
  }

  lemma RowStays(tasks: Tasks, tasks': Tasks, k: TaskId)
    requires RowsStay(tasks, tasks') && k in tasks
    ensures k in tasks' && SameTask(tasks[k], tasks'[k])
  {
  }

  lemma SameFanned(cfg: Config, s: State, step: Step, r: DagRunId, k: TaskId)
    requires Inv(cfg, s) && Enabled(cfg, s, step) && r in s.plans && !(step.ListenFanOut? && RestOf(s.listener, r) != [])
    requires RowsStay(s.tasks, Apply(cfg, s, step).tasks)
    requires forall x :: x in s.plans ==> x in Apply(cfg, s, step).plans && Apply(cfg, s, step).plans[x].tasks == s.plans[x].tasks
    ensures IsFanned(Apply(cfg, s, step).tasks, Apply(cfg, s, step).plans, r, k) <==> IsFanned(s.tasks, s.plans, r, k)
  {
    hide Inv, Enabled, Apply, RestOf, IsPlanned, RowsStay;
    var s' := Apply(cfg, s, step);
    if k in s.tasks {
      RowStays(s.tasks, s'.tasks, k);
      RowRun(cfg, s, k);
      SameTaskSamePlace(s.plans, s'.plans, s.tasks[k], s'.tasks[k]);
    } else if k in s'.tasks {
      NewRowIs(cfg, s, step, r, k);
    }
  }

  /** A new row is planned, or fanned out by the run whose result is in hand. */
  lemma NewRowIs(cfg: Config, s: State, step: Step, r: DagRunId, k: TaskId)
    requires Inv(cfg, s) && Enabled(cfg, s, step) && r in s.plans && !(step.ListenFanOut? && RestOf(s.listener, r) != [])
    requires k !in s.tasks && k in Apply(cfg, s, step).tasks
    ensures var s' := Apply(cfg, s, step); s'.tasks[k].dagRunId != r || IsPlanned(s'.plans, s'.tasks[k])
  {
    hide TasksOk, DagRunsOk, RunsOk, PlansOk, MembersOk, Shape, ShapesOk, NumbersOk, OrderOk, AttemptOk, CacheOk,
         CacheCovers, RequestsOk, MessageOk, ListenerOk, DagReadOk, FanOutOk, QueueOk, Apply, Enabled, FanOutIds;
    Footprint(cfg, s, step);
    match step
    case PlanSave(run) =>
      StepGuards(cfg, s, step);
      SavesNext(cfg, s, run);
      NextPlanned(s, run);
    case PumpSaveTask =>
      StepGuards(cfg, s, step);
      PumpSteps(cfg, s);
      HeadIsStored(s);
    case ListenSaveTask(ids) =>
      StepGuards(cfg, s, step);
      ResultWrites(cfg, s, ids);
      ResultRowStays(cfg, s);
    case ListenFanOut =>
      StepGuards(cfg, s, step);
      ListenSteps(cfg, s);
      FannedIsNotPlanned(s);
    case _ =>
  }

  /** A row that is Success was so before, or is being completed by the result in hand. */
  lemma NewSuccess(cfg: Config, s: State, step: Step, k: TaskId)
    requires Inv(cfg, s) && Enabled(cfg, s, step) && k in Apply(cfg, s, step).tasks && Apply(cfg, s, step).tasks[k].status.Success?
    ensures (k in s.tasks && s.tasks[k] == Apply(cfg, s, step).tasks[k])
            || (step.ListenSaveTask? && s.listener.SaveTask? && s.listener.m.taskId == k && s.listener.m.Success?)
  {
    hide TasksOk, DagRunsOk, RunsOk, PlansOk, MembersOk, Shape, ShapesOk, NumbersOk, OrderOk, AttemptOk, CacheOk,
         CacheCovers, RequestsOk, MessageOk, ListenerOk, DagReadOk, FanOutOk, QueueOk, Apply, Enabled, FanOutIds;
    Footprint(cfg, s, step);
    match step
    case PlanSave(run) =>
      StepGuards(cfg, s, step);
      SavesNext(cfg, s, run);
      NextPlanned(s, run);
    case PumpSaveTask =>
      StepGuards(cfg, s, step);
      PumpSteps(cfg, s);
    case ListenSaveTask(ids) =>
      StepGuards(cfg, s, step);
      ResultWrites(cfg, s, ids);
      ResultRow(cfg, s);
    case ListenFanOut =>
      StepGuards(cfg, s, step);
      ListenSteps(cfg, s);
      RestIsPending(s);
    case _ =>
  }

  lemma RestIsPending(s: State)
    requires s.listener.FanOut? && FanOutOk(s.tasks, s.plans, s.origins, s.listener)
    ensures s.listener.rest != [] ==> s.listener.rest[0].status.Pending?
  {
  }

  lemma SameChunker(cfg: Config, s: State, step: Step, r: DagRunId)
    requires Inv(cfg, s) && Enabled(cfg, s, step) && r in s.plans && !(step.ListenSaveTask? && SavesChunker(s, r))
    requires forall x :: x in s.plans ==> x in Apply(cfg, s, step).plans && Apply(cfg, s, step).plans[x].tasks == s.plans[x].tasks
    ensures var s' := Apply(cfg, s, step);
            ChunkerDone(s'.tasks, s'.plans, r) ==>
              ChunkerDone(s.tasks, s.plans, r) && ChunkerOutput(s'.tasks, s'.plans, r) == ChunkerOutput(s.tasks, s.plans, r)
  {
    hide Inv, Enabled, Apply;
    var s' := Apply(cfg, s, step);
    if ChunkerDone(s'.tasks, s'.plans, r) {
      FivePlanned(cfg, s, r);
      NewSuccess(cfg, s, step, s'.plans[r].tasks[2].id);
    }
  }

  lemma FivePlanned(cfg: Config, s: State, r: DagRunId)
    requires Inv(cfg, s) && r in s.plans
    ensures |s.plans[r].tasks| == 5
  {
    hide Inv;
    InvPlans(cfg, s);
    PlanLength(s, r);
  }

  lemma SameRest(cfg: Config, s: State, step: Step, r: DagRunId)
    requires Inv(cfg, s) && Enabled(cfg, s, step) && r in s.plans
    requires !(step.ListenSaveTask? && SavesChunker(s, r)) && !(step.ListenFanOut? && RestOf(s.listener, r) != [])
    ensures RestOf(Apply(cfg, s, step).listener, r) == RestOf(s.listener, r)
  {
    hide Inv, Enabled, Apply, SavesChunker;
    Footprint(cfg, s, step);
    if step.ListenSaveTask? {
      OnlyChunkersFanOut(cfg, s, step, r);
    } else if step.ListenFanOut? {
      StepGuards(cfg, s, step);
      ListenSteps(cfg, s);
    } else if !step.IsPump() && !step.PlanStart? && !step.PlanSave? {
      ListenerOffFanOut(cfg, s, step);
    }
  }

  lemma OnlyChunkersFanOut(cfg: Config, s: State, step: Step, r: DagRunId)
    requires Inv(cfg, s) && Enabled(cfg, s, step) && step.ListenSaveTask? && r in s.plans && !SavesChunker(s, r)
    ensures s.listener.SaveTask? && RestOf(Apply(cfg, s, step).listener, r) == []
  {
    hide DagRunsOk, RunsOk, Shape, ShapesOk, NumbersOk, OrderOk, CacheOk, PlansOk, TasksOk, MembersOk,
         CacheCovers, RequestsOk, MessageOk, ListenerOk, DagReadOk, FanOutOk, QueueOk, AttemptOk, Apply, Enabled, FanOutIds, ChunkSets;
    StepGuards(cfg, s, step);
    ResultWrites(cfg, s, step.ids);
    HandledAttempt(s);
    PlanLength(s, r);
    if RestOf(Apply(cfg, s, step).listener, r) != [] {
      FansOutLists(cfg, s.listener.m);
      OnlyChunker(s, s.listener.m.taskId);
    }
  }

  lemma FansOutLists(cfg: Config, m: WorkerStatus)
    requires FansOut(cfg, m)
    ensures m.Success? && ChunkSets(m.output).Some?
  {
  }

  // ----- a chunker's result starts the fan-out -----

  lemma ChunkerFansOut(cfg: Config, s: State, step: Step, r: DagRunId)
    requires Inv(cfg, s) && Enabled(cfg, s, step) && step.ListenSaveTask? && SavesChunker(s, r)
    ensures var s' := Apply(cfg, s, step); FanOutOf(cfg, s'.tasks, s'.plans, s'.listener, r)
  {
    hide Inv, Apply, Enabled, FanOutIds, ListedUuids, FannedAs, IsFanned, IsPlanned, RestOf;
    StepGuards(cfg, s, step);
    ChunkerRow(cfg, s, r);
    var ids := step.ids;
    var s' := ResultStep(cfg, s, ids);
    forall k ensures !IsFanned(s'.tasks, s'.plans, r, k) {
      NoneFannedYet(cfg, s, s'.tasks, r, k);
    }
    FreshFan(cfg, s, s', ids, r);
  }

  lemma ResultStep(cfg: Config, s: State, ids: seq<TaskId>) returns (s': State)
    requires s.listener.SaveTask? && FanOutIds(cfg, s, s.listener.m, ids)
    ensures Enabled(cfg, s, ListenSaveTask(ids)) && s' == Apply(cfg, s, ListenSaveTask(ids))
    ensures s'.tasks == s.tasks[s.listener.task.id := s.listener.task] && s'.plans == s.plans
    ensures s'.listener == AfterSaveTask(cfg, s, s.listener.m, s.listener.task.tenantId, ids)
  {
    hide Apply, Enabled, FanOutIds, AfterSaveTask;
    s' := ListenSaveTaskStep(cfg, s, ids);
  }

  lemma ChunkerRow(cfg: Config, s: State, r: DagRunId)
    requires Inv(cfg, s) && SavesChunker(s, r)
    ensures var t, c := s.listener.task, s.plans[r].tasks[2].id;
            && t.id == c && c in s.tasks && s.tasks[c].status.Running? && SameTask(t, s.tasks[c]) && t.dagRunId == r
            && t.status.Success? && t.result == s.listener.m.output && s.listener.m.dagRunId == r
  {
    hide DagRunsOk, RunsOk, Shape, ShapesOk, NumbersOk, OrderOk, CacheOk, MembersOk,
         CacheCovers, RequestsOk, MessageOk, DagReadOk, FanOutOk, QueueOk, AttemptOk;
    HandledAttempt(s);
    assert PlanOk(s.tasks, s.origins, r, s.plans[r]);
  }

  lemma NoneFannedYet(cfg: Config, s: State, tasks': Tasks, r: DagRunId, k: TaskId)
    requires Inv(cfg, s) && SavesChunker(s, r) && tasks' == s.tasks[s.listener.task.id := s.listener.task]
    requires var t, c := s.listener.task, s.plans[r].tasks[2].id;
             t.id == c && c in s.tasks && s.tasks[c].status.Running? && SameTask(t, s.tasks[c])
    ensures !IsFanned(tasks', s.plans, r, k)
  {
    hide DagRunsOk, RunsOk, Shape, ShapesOk, NumbersOk, OrderOk, CacheOk, PlansOk, ListenerOk,
         CacheCovers, RequestsOk, MessageOk, DagReadOk, FanOutOk, QueueOk, AttemptOk, IsPlanned;
    if k in s.tasks {
      assert SameTask(s.tasks[k], tasks'[k]);
      SameTaskSamePlace(s.plans, s.plans, s.tasks[k], tasks'[k]);
    }
  }

  lemma FreshFan(cfg: Config, s: State, s': State, ids: seq<TaskId>, r: DagRunId)
    requires SavesChunker(s, r) && FanOutIds(cfg, s, s.listener.m, ids) && s.listener.m.dagRunId == r
    requires s'.tasks == s.tasks[s.listener.task.id := s.listener.task] && s'.plans == s.plans
    requires s.listener.task.id == s.plans[r].tasks[2].id && s.listener.task.result == s.listener.m.output
    requires s'.listener == AfterSaveTask(cfg, s, s.listener.m, s.listener.task.tenantId, ids)
    requires forall k :: !IsFanned(s'.tasks, s'.plans, r, k)
    ensures FanOutOf(cfg, s'.tasks, s'.plans, s'.listener, r)
  {
    hide ParsedUuids, ChunkSets, IsFanned;
    if ChunkerDone(s'.tasks, s'.plans, r) {
      assert ChunkerOutput(s'.tasks, s'.plans, r) == s.listener.m.output;
      FreshlyFanned(cfg, s, s', ids, r);
    }
  }

  lemma FreshlyFanned(cfg: Config, s: State, s': State, ids: seq<TaskId>, r: DagRunId)
    requires s.listener.SaveTask? && FanOutIds(cfg, s, s.listener.m, ids) && s.listener.m.dagRunId == r && s.listener.m.Success?
    requires s'.listener == AfterSaveTask(cfg, s, s.listener.m, s.listener.task.tenantId, ids)
    requires forall k :: !IsFanned(s'.tasks, s'.plans, r, k)
    ensures FannedAs(s'.tasks, s'.plans, RestOf(s'.listener, r), r, ids, ListedUuids(cfg, s.listener.m.output))
  {
    hide ParsedUuids, ChunkSets, IsFanned, ListedUuids;
    ListedAre(cfg, s.listener.m.output);
  }

  // ----- saving one of the fanned-out rows -----

  lemma FanOutSavesOne(cfg: Config, s: State, r: DagRunId)
    requires Inv(cfg, s) && Enabled(cfg, s, ListenFanOut) && RestOf(s.listener, r) != [] && r in s.plans
    requires FanOutOf(cfg, s.tasks, s.plans, s.listener, r)
    ensures var s' := Apply(cfg, s, ListenFanOut); FanOutOf(cfg, s'.tasks, s'.plans, s'.listener, r)
  {
    hide DagRunsOk, RunsOk, Shape, ShapesOk, NumbersOk, OrderOk, CacheOk, MembersOk, TasksOk, PlansOk, ListenerOk,
         CacheCovers, RequestsOk, MessageOk, DagReadOk, FanOutOk, QueueOk, AttemptOk, Apply, Enabled, ListedUuids, IsPlanned, FannedAs,
         ChunkerDone, ChunkerOutput;
    ListenSteps(cfg, s);
    StepGuards(cfg, s, ListenFanOut);
    NextFanned(s);
    FannedIsNotPlanned(s);
    var s', t := Apply(cfg, s, ListenFanOut), s.listener.rest[0];
    ChunkerUntouched(s, s', r, t);
    if ChunkerDone(s'.tasks, s'.plans, r) {
      var uuids := ListedUuids(cfg, ChunkerOutput(s.tasks, s.plans, r));
      var ids :| FannedAs(s.tasks, s.plans, RestOf(s.listener, r), r, ids, uuids);
      OneMoreFanned(s.tasks, s.plans, s.listener.rest, r, ids, uuids);
      assert FannedAs(s'.tasks, s'.plans, RestOf(s'.listener, r), r, ids, uuids);
    }
  }

  lemma ChunkerUntouched(s: State, s': State, r: DagRunId, t: Task)
    requires s'.tasks == s.tasks[t.id := t] && s'.plans == s.plans && t.id !in s.tasks
    requires FanOutOk(s.tasks, s.plans, s.origins, s.listener) && s.listener.FanOut? && s.listener.m.dagRunId == r
    ensures ChunkerDone(s.tasks, s.plans, r) && ChunkerDone(s'.tasks, s'.plans, r)
    ensures ChunkerOutput(s'.tasks, s'.plans, r) == ChunkerOutput(s.tasks, s.plans, r)
  {
  }

  lemma OneMoreFanned(tasks: Tasks, plans: Plans, rest: seq<Task>, r: DagRunId, ids: seq<TaskId>, uuids: seq<string>)
    requires rest != [] && FannedAs(tasks, plans, rest, r, ids, uuids)
    requires rest[0].id !in tasks && rest[0].dagRunId == r && !IsPlanned(plans, rest[0])
    ensures FannedAs(tasks[rest[0].id := rest[0]], plans, rest[1..], r, ids, uuids)
  {
    hide IsPlanned, IsChunkSetOf;
    var tasks', n := tasks[rest[0].id := rest[0]], |ids| - |rest|;
    assert rest[0].id == ids[n + 0] && IsChunkSetOf(rest[0].payload, uuids[n + 0]);
    forall i | 0 <= i < n + 1 ensures FannedFor(tasks', plans, r, ids[i], uuids[i]) {
      if i < n {
        assert FannedFor(tasks, plans, r, ids[i], uuids[i]);
      }
    }
    forall i | 0 <= i < |rest| - 1
      ensures rest[1..][i].id == ids[n + 1 + i] && IsChunkSetOf(rest[1..][i].payload, uuids[n + 1 + i])
    {
      assert rest[1..][i] == rest[i + 1];
    }
    forall k | IsFanned(tasks', plans, r, k) ensures k in ids {
      if k != rest[0].id {
        assert IsFanned(tasks, plans, r, k);
      }
    }
  }

  // ----- in every reachable state -----

  lemma {:induction false} ExecutionCarries(cfg: Config, states: seq<State>, i: nat)
    requires IsExecution(cfg, states) && i < |states|
    ensures Carries(states[i]) && FanOuts(cfg, states[i].tasks, states[i].plans, states[i].listener)
  {
    hide Inv, Enabled, Apply, Carries, FanOuts;
    if i == 0 {
      NothingCarried(cfg);
    } else {
      ExecutionCarries(cfg, states, i - 1);
      ExecutionKeepsInv(cfg, states, i - 1);
      assert Next(cfg, states[i - 1], states[i - 1 + 1]);
      var step :| Enabled(cfg, states[i - 1], step) && states[i] == Apply(cfg, states[i - 1], step);
      StepKeepsCarries(cfg, states[i - 1], step);
      StepKeepsFanOuts(cfg, states[i - 1], step);
    }
  }

  lemma NothingCarried(cfg: Config)
    ensures Carries(INIT) && FanOuts(cfg, INIT.tasks, INIT.plans, INIT.listener)
  {
  }

  lemma ReachableCarries(cfg: Config, s: State)
    requires Reachable(cfg, s)
    ensures Carries(s) && FanOuts(cfg, s.tasks, s.plans, s.listener)
  {
    hide Next, Carries, FanOuts;
    var states :| IsExecution(cfg, states) && states[|states| - 1] == s;
    ExecutionCarries(cfg, states, |states| - 1);
  }

  /** The row is one of its run's plan. */
  ghost predicate IsPlannedRow(s: State, k: TaskId) {
    && k in s.tasks && s.tasks[k].dagRunId in s.plans
    && exists i :: 0 <= i < |s.plans[s.tasks[k].dagRunId].tasks| && s.plans[s.tasks[k].dagRunId].tasks[i].id == k
  }

  /** A published request carries what its task's row carries, then and ever after: the run's input for the extractor, nothing
      for the other planned stages, and the chunk set for a fanned-out embedder. */
  lemma RequestsCarryPayload(cfg: Config, s: State, rt: ReadyTask)
    requires Reachable(cfg, s) && rt in s.sent
    ensures rt.taskId in s.tasks && rt.dagRunId in s.dagRuns && rt.taskRunId in s.taskRuns
    ensures rt.payload == s.tasks[rt.taskId].payload && rt.kind == s.tasks[rt.taskId].kind && rt.dagRunId == s.tasks[rt.taskId].dagRunId
    ensures rt.tenantId == s.tasks[rt.taskId].tenantId == s.dagRuns[rt.dagRunId].tenantId
    ensures s.taskRuns[rt.taskRunId].taskId == rt.taskId
    ensures rt.kind == Extractor ==> rt.payload == s.dagRuns[rt.dagRunId].params
    ensures rt.kind == Normalizer || rt.kind == Chunker || rt.kind == Indexer ==> rt.payload == Json.Null
    ensures rt.kind == Embedder && IsPlannedRow(s, rt.taskId) ==> rt.payload == Json.Null
    ensures rt.kind == Embedder && !IsPlannedRow(s, rt.taskId) ==>
              exists u: string :: rt.payload == Json.Object([Json.Entry("chunk_set_id", Json.String(u))])
  {
    hide Shape, ShapesOk, NumbersOk, TasksOk, PlansOk, MembersOk, CacheOk, CacheCovers, ListenerOk, FanOutOk, QueueOk, Reachable, OrderOk,
         DagRunsOk, RunsOk, AttemptOk, MessageOk, DagReadOk, FanOuts, IsPlanned, PlansCarry, QueueCarries, HandsCarry, IsPlannedRow;
    ReachableInv(cfg, s);
    ReachableCarries(cfg, s);
    assert RequestOk(s.tasks, s.taskRuns, rt);
    assert AskCarries(s.tasks, rt);
    assert RowCarries(s.plans, s.dagRuns, s.tasks[rt.taskId]);
    PlannedById(cfg, s, rt.taskId);
    if !IsPlanned(s.plans, s.tasks[rt.taskId]) {
      FannedRowHasChunkSet(cfg, s, rt.taskId);
    }
  }

  /** Planned rows are those whose ids the plan has; all rows but embedders are planned. */
  lemma PlannedById(cfg: Config, s: State, k: TaskId)
    requires Inv(cfg, s) && k in s.tasks
    ensures IsPlanned(s.plans, s.tasks[k]) <==> IsPlannedRow(s, k)
    ensures s.tasks[k].kind != Embedder ==> IsPlanned(s.plans, s.tasks[k])
  {
    hide DagRunsOk, RunsOk, Shape, ShapesOk, NumbersOk, OrderOk, CacheOk, ListenerOk, PlansOk, IsPlanned,
         CacheCovers, RequestsOk, MessageOk, DagReadOk, FanOutOk, QueueOk, AttemptOk, IsPlannedRow;
    PlanIsOk(s, s.tasks[k].dagRunId);
    InItsPlan(s, k);
  }

  lemma InItsPlan(s: State, k: TaskId)
    requires k in s.tasks && s.tasks[k].id == k && s.tasks[k].dagRunId in s.plans
    requires PlanOk(s.tasks, s.origins, s.tasks[k].dagRunId, s.plans[s.tasks[k].dagRunId])
    ensures IsPlanned(s.plans, s.tasks[k]) <==> IsPlannedRow(s, k)
  {
    var r := s.tasks[k].dagRunId;
    if i :| 0 <= i < |s.plans[r].tasks| && s.plans[r].tasks[i].id == k {
      assert s.tasks[k].kind == PROFILE_SEQUENCE[i];
    }
  }

  lemma FannedRowHasChunkSet(cfg: Config, s: State, k: TaskId)
    requires Inv(cfg, s) && FanOuts(cfg, s.tasks, s.plans, s.listener) && k in s.tasks && !IsPlanned(s.plans, s.tasks[k])
    ensures exists u: string :: s.tasks[k].payload == Json.Object([Json.Entry("chunk_set_id", Json.String(u))])
  {
    hide DagRunsOk, RunsOk, Shape, ShapesOk, NumbersOk, OrderOk, CacheOk, ListenerOk, PlansOk, IsPlanned, ListedUuids,
         CacheCovers, RequestsOk, MessageOk, DagReadOk, FanOutOk, QueueOk, AttemptOk;
    var r := s.tasks[k].dagRunId;
    assert FanOutOf(cfg, s.tasks, s.plans, s.listener, r);
    var uuids := ListedUuids(cfg, ChunkerOutput(s.tasks, s.plans, r));
    var ids :| FannedAs(s.tasks, s.plans, RestOf(s.listener, r), r, ids, uuids);
    FannedRow(s, r, ids, uuids, k);
  }

  lemma FannedRow(s: State, r: DagRunId, ids: seq<TaskId>, uuids: seq<string>, k: TaskId)
    requires FannedAs(s.tasks, s.plans, RestOf(s.listener, r), r, ids, uuids) && IsFanned(s.tasks, s.plans, r, k)
    requires FanOutOk(s.tasks, s.plans, s.origins, s.listener)
    ensures exists u: string :: IsChunkSetOf(s.tasks[k].payload, u)
  {
    hide IsFanned;
    var i :| 0 <= i < |ids| && ids[i] == k;
    var n := |ids| - |RestOf(s.listener, r)|;
    if i >= n {
      assert RestOf(s.listener, r)[i - n].id == ids[n + (i - n)];
      NotStoredYet(s, r, i - n, k);
    } else {
      assert FannedFor(s.tasks, s.plans, r, ids[i], uuids[i]);
    }
  }

  lemma NotStoredYet(s: State, r: DagRunId, i: nat, k: TaskId)
    requires i < |RestOf(s.listener, r)| && FanOutOk(s.tasks, s.plans, s.origins, s.listener) && RestOf(s.listener, r)[i].id == k
    ensures k !in s.tasks && !IsFanned(s.tasks, s.plans, r, k)
  {
  }

  /** Once a chunker's result is stored and its fan-out saved, the run has besides the planned embedder exactly one embedder for
      each UUID that the stored result lists, in order, and no other. */
  lemma FanOutIsComplete(cfg: Config, s: State, c: TaskId) returns (ids: seq<TaskId>)
    requires Reachable(cfg, s) && c in s.tasks && s.tasks[c].kind == Chunker && s.tasks[c].status.Success?
    requires !(s.listener.FanOut? && s.listener.m.dagRunId == s.tasks[c].dagRunId)
    ensures |ids| == |ListedUuids(cfg, s.tasks[c].result)| && forall i, j :: 0 <= i < j < |ids| ==> ids[i] != ids[j]
    ensures forall i :: 0 <= i < |ids| ==>
              && ids[i] in s.tasks
              && var e := s.tasks[ids[i]];
                 && e.dagRunId == s.tasks[c].dagRunId && e.kind == Embedder && e.tenantId == s.tasks[c].tenantId
                 && e.payload == Json.Object([Json.Entry("chunk_set_id", Json.String(ListedUuids(cfg, s.tasks[c].result)[i]))])
    ensures forall k :: k in s.tasks && s.tasks[k].dagRunId == s.tasks[c].dagRunId && !IsPlannedRow(s, k) ==> k in ids
    ensures forall i :: 0 <= i < |ids| ==> !IsPlannedRow(s, ids[i])
  {
    hide DagRunsOk, RunsOk, Shape, ShapesOk, NumbersOk, OrderOk, CacheOk, ListenerOk, IsPlanned, ListedUuids, IsPlannedRow, PlansOk,
         CacheCovers, RequestsOk, MessageOk, DagReadOk, FanOutOk, QueueOk, AttemptOk, Reachable, MembersOk, TasksOk, Carries;
    var r := s.tasks[c].dagRunId;
    ReachableInv(cfg, s);
    ReachableCarries(cfg, s);
    OnlyChunker(s, c);
    assert FanOutOf(cfg, s.tasks, s.plans, s.listener, r);
    var uuids := ListedUuids(cfg, s.tasks[c].result);
    ids :| FannedAs(s.tasks, s.plans, RestOf(s.listener, r), r, ids, uuids);
    forall i | 0 <= i < |ids| ensures FannedFor(s.tasks, s.plans, r, ids[i], uuids[i]) && !IsPlannedRow(s, ids[i])
        && s.tasks[ids[i]].kind == Embedder && s.tasks[ids[i]].tenantId == s.tasks[c].tenantId
    {
      assert FannedFor(s.tasks, s.plans, r, ids[i], uuids[i]);
      PlannedById(cfg, s, ids[i]);
      SameTenant(s, c, ids[i]);
    }
    forall k | k in s.tasks && s.tasks[k].dagRunId == r && !IsPlannedRow(s, k) ensures k in ids {
      PlannedById(cfg, s, k);
      assert IsFanned(s.tasks, s.plans, r, k);
    }
  }

  lemma SameTenant(s: State, k: TaskId, k': TaskId)
    requires Carries(s) && k in s.tasks && k' in s.tasks && s.tasks[k].dagRunId == s.tasks[k'].dagRunId
    ensures s.tasks[k].tenantId == s.tasks[k'].tenantId
  {
    assert RowCarries(s.plans, s.dagRuns, s.tasks[k]) && RowCarries(s.plans, s.dagRuns, s.tasks[k']);
  }

  // ----- through an execution -----

  /** A run keeps the tenant and the input it was created with, and a task all but its status and result. */
  lemma {:induction false} InputStays(cfg: Config, states: seq<State>, i: nat, j: nat)
    requires IsExecution(cfg, states) && i <= j < |states|
    ensures forall r :: r in states[i].dagRuns ==>
              && r in states[j].dagRuns && states[j].dagRuns[r].tenantId == states[i].dagRuns[r].tenantId
              && states[j].dagRuns[r].params == states[i].dagRuns[r].params
    ensures forall k :: k in states[i].tasks ==>
              && k in states[j].tasks
              && states[j].tasks[k] == states[i].tasks[k].(status := states[j].tasks[k].status, result := states[j].tasks[k].result)
    decreases j - i
  {
    hide Inv, Enabled, Apply, Carries;
    if i < j {
      InputStays(cfg, states, i, j - 1);
      ExecutionKeepsInv(cfg, states, j - 1);
      ExecutionCarries(cfg, states, j - 1);
      CarriesHands(states[j - 1]);
      assert Next(cfg, states[j - 1], states[j - 1 + 1]);
      var step :| Enabled(cfg, states[j - 1], step) && states[j] == Apply(cfg, states[j - 1], step);
      StepKeepsRuns(cfg, states[j - 1], step);
      StepKeepsRows(cfg, states[j - 1], step);
    }
  }

  lemma CarriesHands(s: State)
    requires Carries(s)
    ensures HandsCarry(s.dagRuns, s.pump.pc, s.listener)
  {
  }

  /** When a task turns Success its row takes the output of the result in hand, a success of one of its attempts, and keeps it. */
  lemma ResultIsOutput(cfg: Config, states: seq<State>, i: nat, j: nat, k: TaskId)
    requires IsExecution(cfg, states) && i < j < |states|
    requires k in states[i + 1].tasks && states[i + 1].tasks[k].status.Success?
    requires k in states[i].tasks ==> !states[i].tasks[k].status.Success?
    ensures states[i].listener.SaveTask?
    ensures var m := states[i].listener.m;
            && m.Success? && m.taskId == k && m.taskRunId in states[i].taskRuns && states[i].taskRuns[m.taskRunId].taskId == k
            && k in states[j].tasks && states[j].tasks[k].status.Success? && states[j].tasks[k].result == m.output
  {
    hide Inv, Enabled, Apply;
    ExecutionKeepsInv(cfg, states, i);
    assert Next(cfg, states[i], states[i + 1]);
    var step :| Enabled(cfg, states[i], step) && states[i + 1] == Apply(cfg, states[i], step);
    NewSuccess(cfg, states[i], step, k);
    SuccessTakesOutput(cfg, states[i], step);
    FinishedStays(cfg, states, i + 1, j);
  }

  lemma SuccessTakesOutput(cfg: Config, s: State, step: Step)
    requires Inv(cfg, s) && Enabled(cfg, s, step) && step.ListenSaveTask? && s.listener.SaveTask? && s.listener.m.Success?
    ensures var s', m := Apply(cfg, s, step), s.listener.m;
            && m.taskId in s'.tasks && s'.tasks[m.taskId].result == m.output
            && m.taskRunId in s.taskRuns && s.taskRuns[m.taskRunId].taskId == m.taskId
  {
    hide DagRunsOk, RunsOk, Shape, ShapesOk, NumbersOk, OrderOk, CacheOk, PlansOk, MembersOk,
         CacheCovers, RequestsOk, MessageOk, DagReadOk, FanOutOk, QueueOk, AttemptOk, Apply, Enabled, FanOutIds;
    StepGuards(cfg, s, step);
    HandledAttempt(s);
    ResultWrites(cfg, s, step.ids);
    ResultRowStays(cfg, s);
  }

  /** When a task turns Failed its row takes the error of the result in hand, and keeps it. */
  lemma ResultIsError(cfg: Config, states: seq<State>, i: nat, j: nat, k: TaskId)
    requires IsExecution(cfg, states) && i < j < |states|
    requires k in states[i + 1].tasks && states[i + 1].tasks[k].status.Failed?
    requires k in states[i].tasks ==> !states[i].tasks[k].status.Failed?
    ensures states[i].listener.SaveTask?
    ensures var m := states[i].listener.m;
            && m.Failed? && m.taskId == k && |RunsOf(states[i].taskRuns, k)| >= cfg.maxAttempts
            && k in states[j].tasks && states[j].tasks[k].status.Failed?
            && states[j].tasks[k].result == Some(Json.Object([
                 Json.Entry("error", Json.String(m.error)),
                 Json.Entry("error_kind", if m.errorKind.None? then Json.Null else Json.String(m.errorKind.value))]))
  {
    hide Inv, Enabled, Apply;
    ExecutionKeepsInv(cfg, states, i);
    assert Next(cfg, states[i], states[i + 1]);
    var step :| Enabled(cfg, states[i], step) && states[i + 1] == Apply(cfg, states[i], step);
    NewFailure(cfg, states[i], step, k);
    FinishedStays(cfg, states, i + 1, j);
  }

  lemma NewFailure(cfg: Config, s: State, step: Step, k: TaskId)
    requires Inv(cfg, s) && Enabled(cfg, s, step) && k in Apply(cfg, s, step).tasks && Apply(cfg, s, step).tasks[k].status.Failed?
    requires k in s.tasks ==> !s.tasks[k].status.Failed?
    ensures s.listener.SaveTask?
    ensures var m := s.listener.m;
            && m.Failed? && m.taskId == k && |RunsOf(s.taskRuns, k)| >= cfg.maxAttempts
            && Apply(cfg, s, step).tasks[k].result == Some(Json.Object([
                 Json.Entry("error", Json.String(m.error)),
                 Json.Entry("error_kind", if m.errorKind.None? then Json.Null else Json.String(m.errorKind.value))]))
  {
    hide TasksOk, DagRunsOk, RunsOk, PlansOk, MembersOk, Shape, ShapesOk, NumbersOk, OrderOk, AttemptOk, CacheOk,
         CacheCovers, RequestsOk, MessageOk, DagReadOk, FanOutOk, QueueOk, Apply, Enabled, FanOutIds, ListenerOk;
    Footprint(cfg, s, step);
    match step
    case PlanSave(run) =>
      StepGuards(cfg, s, step);
      SavesNext(cfg, s, run);
      NextPlanned(s, run);
    case PumpSaveTask =>
      StepGuards(cfg, s, step);
      PumpSteps(cfg, s);
    case ListenSaveTask(ids) =>
      StepGuards(cfg, s, step);
      ResultWrites(cfg, s, ids);
      FailedRow(cfg, s);
    case ListenFanOut =>
      StepGuards(cfg, s, step);
      ListenSteps(cfg, s);
      RestIsPending(s);
    case _ =>
  }

  lemma FailedRow(cfg: Config, s: State)
    requires s.listener.SaveTask? && ListenerOk(cfg, s.tasks, s.taskRuns, s.listener) && TasksOk(s.tasks, s.plans, s.origins)
    ensures var m, t := s.listener.m, s.listener.task;
            && t.id == m.taskId && t.id in s.tasks
            && (t.status.Failed? ==>
                  && m.Failed? && |RunsOf(s.taskRuns, t.id)| >= cfg.maxAttempts
                  && t.result == Some(Json.Object([
                       Json.Entry("error", Json.String(m.error)),
                       Json.Entry("error_kind", if m.errorKind.None? then Json.Null else Json.String(m.errorKind.value))])))
  {
  }
}
