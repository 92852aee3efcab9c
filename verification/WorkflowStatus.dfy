/** How the stored status of a dag run relates to the statuses of its tasks. */
module WorkflowStatus {
  import opened WorkflowTypes
  import opened WorkflowMachine
  import opened WorkflowInvariant
  import opened WorkflowKeeps
  import opened WorkflowSteps
  import Json

  type DagRuns = map<DagRunId, DagRun>

  // ----- the invariant -----

  ghost predicate HasAttempt(tasks: Tasks, taskRuns: Runs, r: DagRunId) {
    exists q :: q in taskRuns && taskRuns[q].taskId in tasks && tasks[taskRuns[q].taskId].dagRunId == r
  }

  /** The listener stored a result of run r and has not yet refreshed the run's status. */
  predicate Window(l: Listener, r: DagRunId) {
    (l.FanOut? || l.GetDag? || l.ListTasks? || l.SaveDag?) && l.m.dagRunId == r
  }

  /** The pump saved the attempt `q` and has not yet marked its run Running. */
  predicate Marking(pc: PumpPc, q: TaskRunId) {
    (pc.SaveTask? || HeadSaved(pc)) && pc.run.id == q
  }

  /** Runs with a published or publishable request are past Created; a Created run has at most the attempt being marked;
      a run past Created has an attempt. */
  ghost predicate CreatedOk(dagRuns: DagRuns, tasks: Tasks, taskRuns: Runs, sent: set<ReadyTask>, pump: Pump) {
    && (forall rt :: rt in sent ==> rt.dagRunId in dagRuns && !dagRuns[rt.dagRunId].status.Created?)
    && (forall rt :: rt in pump.ready ==> rt.dagRunId in dagRuns && !dagRuns[rt.dagRunId].status.Created?)
    && (forall q ::
          (q in taskRuns && taskRuns[q].taskId in tasks && tasks[taskRuns[q].taskId].dagRunId in dagRuns
           && dagRuns[tasks[taskRuns[q].taskId].dagRunId].status.Created?) ==> Marking(pump.pc, q))
    && (forall r :: r in dagRuns && !dagRuns[r].status.Created? ==> HasAttempt(tasks, taskRuns, r))
  }

  ghost predicate SomeFailed(tasks: Tasks, r: DagRunId) {
    exists k :: k in tasks && tasks[k].dagRunId == r && tasks[k].status.Failed?
  }

  ghost predicate MarkOk(dagRuns: DagRuns, pump: Pump) {
    pump.pc.SaveDag? ==>
      && pump.pc.dag.id in dagRuns && dagRuns[pump.pc.dag.id].status.Created?
      && pump.pc.dag == dagRuns[pump.pc.dag.id].(status := DagRunStatus.Running)
  }

  /** A refresh works on the stored row; what it is about to write was derived from the tasks, and differs. */
  ghost predicate RefreshOk(dagRuns: DagRuns, tasks: Tasks, early: set<DagRunId>, late: set<DagRunId>, l: Listener) {
    && (l.ListTasks? ==> l.m.dagRunId in dagRuns && l.dag == dagRuns[l.m.dagRunId])
    && (l.SaveDag? ==>
          var r := l.m.dagRunId;
          && r in dagRuns && l.dag == dagRuns[r].(status := l.dag.status) && l.dag.status != dagRuns[r].status
          && (l.dag.status.Running? || l.dag.status.Success? || l.dag.status.Failed?)
          && (l.dag.status.Failed? <==> SomeFailed(tasks, r))
          && (r !in late <==> l.dag.status == DerivedStatus(tasks, r))
          && (r in late ==> l.dag.status.Success?)
          && (dagRuns[r].status.Success? ==> r in early))
  }

  /** The run's stored status says what its tasks say. */
  ghost predicate Agrees(dagRuns: DagRuns, tasks: Tasks, r: DagRunId) {
    r in dagRuns && dagRuns[r].status == DerivedStatus(tasks, r)
  }

  /** Outside its refresh window a run agrees with its tasks exactly when it is not late. */
  ghost predicate AgreementOk(dagRuns: DagRuns, tasks: Tasks, late: set<DagRunId>, l: Listener) {
    && (forall r :: r in dagRuns && !dagRuns[r].status.Created? && !Window(l, r) ==> (Agrees(dagRuns, tasks, r) <==> r !in late))
    && (forall r :: r in late && !Window(l, r) ==> !SomeFailed(tasks, r))
    && (forall r :: r in dagRuns && dagRuns[r].status.Failed? ==> SomeFailed(tasks, r))
    && (forall r :: r in dagRuns ==> !dagRuns[r].status.Cancelled? && !dagRuns[r].status.PartialFailed?)
  }

  /** Late runs were dispatched from before their plan was fully saved and count as done; a run whose refresh is under way
      and that is still stored as Success is late. */
  ghost predicate LateOk(dagRuns: DagRuns, early: set<DagRunId>, late: set<DagRunId>, l: Listener) {
    && late <= early
    && (forall r :: r in late ==> r in dagRuns && CountsAsDone(dagRuns, l, r))
    && (forall r :: r in dagRuns && dagRuns[r].status.Success? && Window(l, r) && !l.SaveDag? ==> r in late)
  }

  ghost predicate StatusOk(dagRuns: DagRuns, tasks: Tasks, early: set<DagRunId>, late: set<DagRunId>, l: Listener) {
    RefreshOk(dagRuns, tasks, early, late, l) && AgreementOk(dagRuns, tasks, late, l) && LateOk(dagRuns, early, late, l)
  }

  ghost predicate EarlyOk(tasks: Tasks, taskRuns: Runs, plans: Plans, early: set<DagRunId>) {
    forall r :: r in plans && r !in early && HasAttempt(tasks, taskRuns, r) ==> plans[r].saved == |plans[r].tasks|
  }

  ghost predicate StatusInv(s: State) {
    && CreatedOk(s.dagRuns, s.tasks, s.taskRuns, s.sent, s.pump)
    && MarkOk(s.dagRuns, s.pump)
    && StatusOk(s.dagRuns, s.tasks, s.early, s.late, s.listener)
    && EarlyOk(s.tasks, s.taskRuns, s.plans, s.early)
  }
  lemma InitStatusInv()
    ensures StatusInv(INIT)
  {
  }

  // ----- facts used by several steps -----

  /** The listener handles results of runs that are past Created. */
  lemma HandledRun(s: State)
    requires !s.listener.Idle? && MessageOk(s.sent, s.listener) && CreatedOk(s.dagRuns, s.tasks, s.taskRuns, s.sent, s.pump)
    ensures var r := s.listener.m.dagRunId;
            r in s.dagRuns && !s.dagRuns[r].status.Created? && HasAttempt(s.tasks, s.taskRuns, r)
  {
  }

  /** The derived status after one row was rewritten or inserted. */
  lemma DerivedElsewhere(tasks: Tasks, t: Task, r: DagRunId)
    requires t.dagRunId != r && (t.id in tasks ==> tasks[t.id].dagRunId != r)
    ensures DerivedStatus(tasks[t.id := t], r) == DerivedStatus(tasks, r)
    ensures SomeFailed(tasks[t.id := t], r) == SomeFailed(tasks, r)
  {
    var tasks' := tasks[t.id := t];
    assert forall k :: k in tasks && tasks[k].dagRunId == r ==> k in tasks' && tasks'[k] == tasks[k];
    assert forall k :: k in tasks' && tasks'[k].dagRunId == r ==> k in tasks && tasks'[k] == tasks[k];
  }

  lemma DerivedOnDispatch(tasks: Tasks, k: TaskId, r: DagRunId)
    requires k in tasks && tasks[k].status.Pending?
    ensures var tasks' := tasks[k := tasks[k].(status := TaskStatus.Running)];
            DerivedStatus(tasks', r) == DerivedStatus(tasks, r) && SomeFailed(tasks', r) == SomeFailed(tasks, r)
  {
    var tasks' := tasks[k := tasks[k].(status := TaskStatus.Running)];
    assert forall x :: x in tasks <==> x in tasks';
    assert forall x :: x in tasks && x != k ==> tasks'[x] == tasks[x];
    assert tasks'[k].dagRunId == tasks[k].dagRunId;
    if SomeFailed(tasks, r) {
      var x :| x in tasks && tasks[x].dagRunId == r && tasks[x].status.Failed?;
      assert tasks'[x].status.Failed?;
    }
  }

  /** A row that was not Failed may take any status; failures elsewhere remain. */
  lemma FailureRemains(tasks: Tasks, t: Task, r: DagRunId)
    requires SomeFailed(tasks, r) && (t.id in tasks ==> !tasks[t.id].status.Failed?)
    ensures SomeFailed(tasks[t.id := t], r)
  {
    var x :| x in tasks && tasks[x].dagRunId == r && tasks[x].status.Failed?;
    assert tasks[t.id := t][x].status.Failed?;
  }

  lemma NewPendingRow(tasks: Tasks, t: Task, r: DagRunId)
    requires t.id !in tasks && t.status.Pending?
    ensures SomeFailed(tasks[t.id := t], r) == SomeFailed(tasks, r)
  {
    if SomeFailed(tasks[t.id := t], r) {
      var x :| x in tasks[t.id := t] && tasks[t.id := t][x].dagRunId == r && tasks[t.id := t][x].status.Failed?;
      assert x in tasks && tasks[x].status.Failed?;
    }
    if SomeFailed(tasks, r) {
      FailureRemains(tasks, t, r);
    }
  }

  /** Rewriting a row, or inserting one without attempts, leaves the runs' attempts alone. */
  lemma KeepAttempts(s: State, t: Task, pump: Pump)
    requires t.id in s.tasks ==> t.dagRunId == s.tasks[t.id].dagRunId
    requires RunsOk(s.tasks, s.taskRuns) && CreatedOk(s.dagRuns, s.tasks, s.taskRuns, s.sent, s.pump)
    requires pump.ready == s.pump.ready && forall q :: Marking(s.pump.pc, q) ==> Marking(pump.pc, q)
    ensures CreatedOk(s.dagRuns, s.tasks[t.id := t], s.taskRuns, s.sent, pump)
    ensures forall r :: HasAttempt(s.tasks[t.id := t], s.taskRuns, r) == HasAttempt(s.tasks, s.taskRuns, r)
  {
    var tasks' := s.tasks[t.id := t];
    forall r ensures HasAttempt(tasks', s.taskRuns, r) == HasAttempt(s.tasks, s.taskRuns, r) {
      if HasAttempt(s.tasks, s.taskRuns, r) {
        var q :| q in s.taskRuns && s.taskRuns[q].taskId in s.tasks && s.tasks[s.taskRuns[q].taskId].dagRunId == r;
        assert tasks'[s.taskRuns[q].taskId].dagRunId == r;
      }
    }
  }

  lemma KeepEarly(s: State, tasks: Tasks, plans: Plans)
    requires EarlyOk(s.tasks, s.taskRuns, s.plans, s.early)
    requires forall r :: HasAttempt(tasks, s.taskRuns, r) == HasAttempt(s.tasks, s.taskRuns, r)
    requires forall r :: r in plans && r !in s.early && HasAttempt(s.tasks, s.taskRuns, r) ==> r in s.plans && plans[r] == s.plans[r]
    ensures EarlyOk(tasks, s.taskRuns, plans, s.early)
  {
  }

  // ----- create_dag_run -----

  lemma StatusPlanStart(cfg: Config, s: State, run: DagRunId, tenant: TenantId, input: Json.Value, ids: seq<TaskId>)
    requires Inv(cfg, s) && StatusInv(s) && run !in s.plans && run !in s.dagRuns && |ids| == 5 && FreshIds(s, ids)
    ensures StatusInv(PlanStartState(s, run, tenant, input, ids))
  {
    hide TasksOk, DagRunsOk, RunsOk, PlansOk, MembersOk, Shape, ShapesOk, NumbersOk, OrderOk, QueueOk, AttemptOk, CacheOk,
         CacheCovers, RequestsOk, MessageOk, ListenerOk, DagReadOk, FanOutOk, CreatedOk, MarkOk, RefreshOk, AgreementOk, LateOk, EarlyOk, PlannedOrigins, DerivedStatus, SomeFailed, HasAttempt;
    var s' := PlanStartState(s, run, tenant, input, ids);
    NoTaskYet(s, run);
    CreatedAfterPlan(s, s'.dagRuns, run);
    AgreementAfterPlan(s, s'.dagRuns, run);
    KeepEarly(s, s'.tasks, s'.plans);
  }

  lemma CreatedAfterPlan(s: State, dagRuns: DagRuns, run: DagRunId)
    requires run !in s.dagRuns && dagRuns.Keys == s.dagRuns.Keys + {run} && dagRuns[run].status.Created?
    requires forall r :: r in s.dagRuns ==> dagRuns[r] == s.dagRuns[r]
    requires forall k :: k in s.tasks ==> s.tasks[k].dagRunId != run
    requires CreatedOk(s.dagRuns, s.tasks, s.taskRuns, s.sent, s.pump) && MarkOk(s.dagRuns, s.pump)
    ensures CreatedOk(dagRuns, s.tasks, s.taskRuns, s.sent, s.pump) && MarkOk(dagRuns, s.pump)
  {
    hide HasAttempt;
  }

  lemma AgreementAfterPlan(s: State, dagRuns: DagRuns, run: DagRunId)
    requires run !in s.dagRuns && dagRuns.Keys == s.dagRuns.Keys + {run} && dagRuns[run].status.Created?
    requires forall r :: r in s.dagRuns ==> dagRuns[r] == s.dagRuns[r]
    requires StatusOk(s.dagRuns, s.tasks, s.early, s.late, s.listener)
    ensures StatusOk(dagRuns, s.tasks, s.early, s.late, s.listener)
  {
    hide DerivedStatus, SomeFailed;
  }

  lemma NoTaskYet(s: State, run: DagRunId)
    requires TasksOk(s.tasks, s.plans, s.origins) && run !in s.plans
    ensures forall k :: k in s.tasks ==> s.tasks[k].dagRunId != run
    ensures !HasAttempt(s.tasks, s.taskRuns, run) && DerivedStatus(s.tasks, run).Success?
  {
  }

  lemma StatusPlanSave(cfg: Config, s: State, run: DagRunId)
    requires Inv(cfg, s) && StatusInv(s) && run in s.plans && s.plans[run].saved < |s.plans[run].tasks|
    ensures StatusInv(PlanSaveState(s, run))
  {
    hide TasksOk, DagRunsOk, RunsOk, PlansOk, MembersOk, Shape, ShapesOk, NumbersOk, OrderOk, QueueOk, AttemptOk, CacheOk,
         CacheCovers, RequestsOk, MessageOk, ListenerOk, DagReadOk, FanOutOk, CreatedOk, MarkOk, RefreshOk, AgreementOk, LateOk, EarlyOk, DerivedStatus, SomeFailed, HasAttempt;
    var s' := PlanSaveState(s, run);
    var t := s.plans[run].tasks[s.plans[run].saved];
    NextPlanned(s, run);
    KeepAttempts(s, t, s.pump);
    NotYetDispatched(s, run);
    KeepEarly(s, s'.tasks, s'.plans);
    forall r ensures SomeFailed(s'.tasks, r) == SomeFailed(s.tasks, r) { NewPendingRow(s.tasks, t, r); }
    forall r | r != run ensures DerivedStatus(s'.tasks, r) == DerivedStatus(s.tasks, r) { DerivedElsewhere(s.tasks, t, r); }
    if run !in s.early && !s.listener.Idle? {
      HandledRun(s);
    }
    WithPendingRow(s.tasks, t);
    DerivedIsFailed(s.tasks, run);
    StatusAfterSave(s, s'.tasks, run);
  }

  lemma WithPendingRow(tasks: Tasks, t: Task)
    requires t.id !in tasks && t.status.Pending?
    ensures DerivedStatus(tasks[t.id := t], t.dagRunId)
            == if SomeFailed(tasks, t.dagRunId) then DagRunStatus.Failed else DagRunStatus.Running
  {
    var tasks' := tasks[t.id := t];
    NewPendingRow(tasks, t, t.dagRunId);
    DerivedIsFailed(tasks', t.dagRunId);
    assert tasks'[t.id].status.Pending?;
  }

  /** A run whose plan is not fully saved and that is not `early` is still Created. */
  lemma NotYetDispatched(s: State, run: DagRunId)
    requires run in s.plans && s.plans[run].saved < |s.plans[run].tasks| && DagRunsOk(s.dagRuns, s.plans)
    requires EarlyOk(s.tasks, s.taskRuns, s.plans, s.early) && CreatedOk(s.dagRuns, s.tasks, s.taskRuns, s.sent, s.pump)
    ensures run in s.dagRuns
    ensures run !in s.early ==> !HasAttempt(s.tasks, s.taskRuns, run) && s.dagRuns[run].status.Created?
  {
  }

  /** A planned task arrives: the run is no longer done, so it is late exactly if it counted as done. */
  lemma StatusAfterSave(s: State, tasks: Tasks, run: DagRunId)
    requires StatusOk(s.dagRuns, s.tasks, s.early, s.late, s.listener)
    requires run in s.dagRuns && (run !in s.early ==> s.dagRuns[run].status.Created?)
    requires !s.listener.Idle? && run !in s.early ==> s.listener.m.dagRunId != run
    requires forall r :: SomeFailed(tasks, r) == SomeFailed(s.tasks, r)
    requires forall r :: r != run ==> DerivedStatus(tasks, r) == DerivedStatus(s.tasks, r)
    requires DerivedStatus(tasks, run) == if SomeFailed(s.tasks, run) then DagRunStatus.Failed else DagRunStatus.Running
    requires DerivedStatus(s.tasks, run).Failed? <==> SomeFailed(s.tasks, run)
    requires var d := DerivedStatus(s.tasks, run); d.Failed? || d.Success? || d.Running?
    ensures var late := if CountsAsDone(s.dagRuns, s.listener, run) then s.late + {run} else s.late;
            StatusOk(s.dagRuns, tasks, s.early, late, s.listener)
  {
    hide DerivedStatus, SomeFailed;
  }

  // ----- the pump -----

  lemma StatusPumpSaveRun(cfg: Config, s: State)
    requires Inv(cfg, s) && StatusInv(s) && s.pump.pc.SaveRun? && s.pump.queue != []
    ensures StatusInv(PumpSaveRunState(s))
  {
    hide TasksOk, DagRunsOk, RunsOk, PlansOk, MembersOk, Shape, ShapesOk, NumbersOk, OrderOk, QueueOk, AttemptOk, CacheOk,
         CacheCovers, RequestsOk, MessageOk, ListenerOk, DagReadOk, FanOutOk, CreatedOk, MarkOk, RefreshOk, AgreementOk, LateOk, EarlyOk, DerivedStatus, SomeFailed;
    AttemptSaved(s);
    EarlyAfterAttempt(s);
    QuietMark(s);
  }

  lemma QuietMark(s: State)
    requires s.pump.pc.SaveRun? && s.pump.queue != []
    requires StatusOk(s.dagRuns, s.tasks, s.early, s.late, s.listener)
    ensures var s' := PumpSaveRunState(s);
            && MarkOk(s'.dagRuns, s'.pump) && StatusOk(s'.dagRuns, s'.tasks, s'.early, s'.late, s'.listener)
  {
    hide DerivedStatus, SomeFailed;
  }

  lemma AttemptSaved(s: State)
    requires s.pump.pc.SaveRun? && QueueOk(s.tasks, s.pump.pc, s.pump.queue)
    requires AttemptOk(s.taskRuns, s.sent, s.pump.pc, s.pump.queue)
    requires RunsOk(s.tasks, s.taskRuns) && CreatedOk(s.dagRuns, s.tasks, s.taskRuns, s.sent, s.pump)
    ensures var s' := PumpSaveRunState(s); CreatedOk(s'.dagRuns, s'.tasks, s'.taskRuns, s'.sent, s'.pump)
  {
    var s' := PumpSaveRunState(s);
    forall r | HasAttempt(s.tasks, s.taskRuns, r) ensures HasAttempt(s'.tasks, s'.taskRuns, r) {
      var q :| q in s.taskRuns && s.taskRuns[q].taskId in s.tasks && s.tasks[s.taskRuns[q].taskId].dagRunId == r;
      assert s'.taskRuns[q] == s.taskRuns[q];
    }
  }

  lemma EarlyAfterAttempt(s: State)
    requires s.pump.pc.SaveRun? && QueueOk(s.tasks, s.pump.pc, s.pump.queue)
    requires AttemptOk(s.taskRuns, s.sent, s.pump.pc, s.pump.queue) && PlansOk(s.tasks, s.plans, s.origins)
    requires EarlyOk(s.tasks, s.taskRuns, s.plans, s.early)
    ensures var s' := PumpSaveRunState(s); EarlyOk(s'.tasks, s'.taskRuns, s'.plans, s'.early)
  {
    hide PlanOk, PlansOk;
    var s' := PumpSaveRunState(s);
    forall r | r in s'.plans && r !in s'.early && HasAttempt(s'.tasks, s'.taskRuns, r)
      ensures s'.plans[r].saved == |s'.plans[r].tasks|
    {
      PlanBounded(s, r);
      if r != s.pump.queue[0].dagRunId {
        var q :| q in s'.taskRuns && s'.taskRuns[q].taskId in s.tasks && s.tasks[s'.taskRuns[q].taskId].dagRunId == r;
        assert q != s.pump.pc.run.id;
        assert s.taskRuns[q] == s'.taskRuns[q];
        assert HasAttempt(s.tasks, s.taskRuns, r);
      }
    }
  }

  lemma PlanBounded(s: State, r: DagRunId)
    requires PlansOk(s.tasks, s.plans, s.origins) && r in s.plans
    ensures s.plans[r].saved <= |s.plans[r].tasks|
  {
    assert PlanOk(s.tasks, s.origins, r, s.plans[r]);
  }

  lemma StatusPumpSaveTask(cfg: Config, s: State)
    requires Inv(cfg, s) && StatusInv(s) && s.pump.pc.SaveTask? && s.pump.queue != []
    ensures StatusInv(PumpSaveTaskState(s))
  {
    hide TasksOk, DagRunsOk, RunsOk, PlansOk, MembersOk, Shape, ShapesOk, NumbersOk, OrderOk, QueueOk, AttemptOk, CacheOk,
         CacheCovers, RequestsOk, MessageOk, ListenerOk, DagReadOk, FanOutOk, CreatedOk, MarkOk, RefreshOk, AgreementOk, LateOk, EarlyOk, DerivedStatus, SomeFailed, HasAttempt;
    var s' := PumpSaveTaskState(s);
    var k := s.pump.queue[0].id;
    HeadIsStored(s);
    HeadIsPending(s);
    KeepAttempts(s, s.tasks[k].(status := TaskStatus.Running), s'.pump);
    KeepEarly(s, s'.tasks, s'.plans);
    forall r
      ensures DerivedStatus(s'.tasks, r) == DerivedStatus(s.tasks, r) && SomeFailed(s'.tasks, r) == SomeFailed(s.tasks, r)
    {
      DerivedOnDispatch(s.tasks, k, r);
    }
    KeepAgreement(s, s'.tasks);
    NoMark(s'.dagRuns, s'.pump);
  }

  lemma HeadIsPending(s: State)
    requires QueueOk(s.tasks, s.pump.pc, s.pump.queue) && s.pump.queue != [] && !HeadSaved(s.pump.pc)
    ensures s.pump.queue[0].status.Pending?
  {
  }

  lemma NoMark(dagRuns: DagRuns, pump: Pump)
    requires !pump.pc.SaveDag?
    ensures MarkOk(dagRuns, pump)
  {
  }

  lemma KeepAgreement(s: State, tasks: Tasks)
    requires StatusOk(s.dagRuns, s.tasks, s.early, s.late, s.listener)
    requires forall r :: DerivedStatus(tasks, r) == DerivedStatus(s.tasks, r) && SomeFailed(tasks, r) == SomeFailed(s.tasks, r)
    ensures StatusOk(s.dagRuns, tasks, s.early, s.late, s.listener)
  {
    hide DerivedStatus, SomeFailed;
  }

  /** The attempt being marked belongs to the head's run, which is a known dag run. */
  lemma MarkedRun(s: State)
    requires HeadSaved(s.pump.pc) && QueueOk(s.tasks, s.pump.pc, s.pump.queue)
    requires AttemptOk(s.taskRuns, s.sent, s.pump.pc, s.pump.queue)
    requires TasksOk(s.tasks, s.plans, s.origins) && DagRunsOk(s.dagRuns, s.plans)
    ensures s.pump.queue != []
    ensures var q, r := s.pump.pc.run.id, s.pump.queue[0].dagRunId;
            && q in s.taskRuns && s.taskRuns[q].taskId in s.tasks && s.tasks[s.taskRuns[q].taskId].dagRunId == r
            && r in s.dagRuns && s.dagRuns[r].id == r && (s.pump.pc.SaveDag? ==> s.pump.pc.dag.id == r)
  {
  }

  lemma StatusPumpGetDag(cfg: Config, s: State)
    requires Inv(cfg, s) && StatusInv(s) && s.pump.pc.GetDag? && s.pump.queue != []
    ensures StatusInv(PumpGetDagState(s))
  {
    hide TasksOk, DagRunsOk, RunsOk, PlansOk, MembersOk, Shape, ShapesOk, NumbersOk, OrderOk, QueueOk, AttemptOk, CacheOk,
         CacheCovers, RequestsOk, MessageOk, ListenerOk, DagReadOk, FanOutOk, DerivedStatus, SomeFailed, HasAttempt, RefreshOk, AgreementOk, LateOk, EarlyOk;
    MarkedRun(s);
  }

  lemma StatusPumpSaveDag(cfg: Config, s: State)
    requires Inv(cfg, s) && StatusInv(s) && s.pump.pc.SaveDag? && s.pump.queue != []
    ensures StatusInv(PumpSaveDagState(s))
  {
    hide TasksOk, DagRunsOk, RunsOk, PlansOk, MembersOk, Shape, ShapesOk, NumbersOk, OrderOk, QueueOk, AttemptOk, CacheOk,
         CacheCovers, RequestsOk, MessageOk, ListenerOk, DagReadOk, FanOutOk, CreatedOk, MarkOk, RefreshOk, AgreementOk, LateOk, EarlyOk, DerivedStatus, SomeFailed, HasAttempt;
    var s' := PumpSaveDagState(s);
    MarkedRun(s);
    MarkKeepsCreated(s);
    FirstDispatchRuns(cfg, s);
    if !s.listener.Idle? {
      HandledRun(s);
    }
    MarkKeepsAgreement(s);
    NoMark(s'.dagRuns, s'.pump);
  }

  lemma MarkKeepsCreated(s: State)
    requires s.pump.pc.SaveDag? && s.pump.queue != [] && MarkOk(s.dagRuns, s.pump)
    requires CreatedOk(s.dagRuns, s.tasks, s.taskRuns, s.sent, s.pump)
    requires var q, r := s.pump.pc.run.id, s.pump.queue[0].dagRunId;
             && q in s.taskRuns && s.taskRuns[q].taskId in s.tasks && s.tasks[s.taskRuns[q].taskId].dagRunId == r
             && r in s.dagRuns && s.pump.pc.dag.id == r
    ensures var s' := PumpSaveDagState(s); CreatedOk(s'.dagRuns, s'.tasks, s'.taskRuns, s'.sent, s'.pump)
  {
    assert HasAttempt(s.tasks, s.taskRuns, s.pump.queue[0].dagRunId);
  }

  /** A run marked Running for the first time has one Running task and no failed one. */
  lemma FirstDispatchRuns(cfg: Config, s: State)
    requires Inv(cfg, s) && StatusInv(s) && s.pump.pc.SaveDag? && s.pump.queue != []
    ensures DerivedStatus(s.tasks, s.pump.queue[0].dagRunId).Running?
  {
    hide TasksOk, DagRunsOk, RunsOk, PlansOk, MembersOk, Shape, NumbersOk, OrderOk, CacheOk,
         CacheCovers, RequestsOk, MessageOk, DagReadOk, FanOutOk, MarkOk, RefreshOk, AgreementOk, LateOk, EarlyOk;
    var r, q := s.pump.queue[0].dagRunId, s.pump.pc.run.id;
    var h := s.pump.queue[0].id;
    MarkedRun(s);
    MarkedIsCreated(s);
    RunningAttempt(cfg, s.taskRuns, q, SettledStatus(cfg, s.tasks, s.taskRuns, s.pump.pc, s.listener, h));
    assert s.tasks[h].status.Running?;
    forall k | k in s.tasks && s.tasks[k].dagRunId == r ensures !s.tasks[k].status.Failed? {
      if s.tasks[k].status.Failed? {
        SettledAsStored(cfg, s, k);
        FailedHasAttempt(cfg, s.taskRuns, k);
      }
    }
  }

  lemma MarkedIsCreated(s: State)
    requires s.pump.pc.SaveDag? && s.pump.queue != [] && MarkOk(s.dagRuns, s.pump)
    requires QueueOk(s.tasks, s.pump.pc, s.pump.queue)
    ensures s.pump.queue[0].dagRunId in s.dagRuns && s.dagRuns[s.pump.queue[0].dagRunId].status.Created?
  {
  }

  lemma FailedHasAttempt(cfg: Config, taskRuns: Runs, k: TaskId)
    requires Shape(cfg, taskRuns, k, TaskStatus.Failed)
    ensures exists q :: q in taskRuns && taskRuns[q].taskId == k && taskRuns[q].status.Failed?
  {
    var q :| q in RunsOf(taskRuns, k);
    assert taskRuns[q].status.Failed?;
  }

  lemma MarkKeepsAgreement(s: State)
    requires s.pump.pc.SaveDag? && s.pump.queue != [] && MarkOk(s.dagRuns, s.pump)
    requires s.pump.pc.dag.id == s.pump.queue[0].dagRunId && DerivedStatus(s.tasks, s.pump.queue[0].dagRunId).Running?
    requires !s.listener.Idle? ==> s.listener.m.dagRunId in s.dagRuns && !s.dagRuns[s.listener.m.dagRunId].status.Created?
    requires StatusOk(s.dagRuns, s.tasks, s.early, s.late, s.listener)
    ensures var s' := PumpSaveDagState(s);
            StatusOk(s'.dagRuns, s'.tasks, s'.early, s'.late, s'.listener)
  {
    hide DerivedStatus, SomeFailed;
  }

  // ----- the listener -----

  lemma StatusListenSaveRun(cfg: Config, s: State)
    requires Inv(cfg, s) && StatusInv(s) && s.listener.SaveRun?
    ensures StatusInv(ListenSaveRunState(s))
  {
    hide TasksOk, DagRunsOk, RunsOk, PlansOk, MembersOk, Shape, ShapesOk, NumbersOk, OrderOk, QueueOk, AttemptOk, CacheOk,
         CacheCovers, RequestsOk, MessageOk, ListenerOk, DagReadOk, FanOutOk, CreatedOk, MarkOk, RefreshOk, AgreementOk, LateOk, EarlyOk, DerivedStatus, SomeFailed, HasAttempt;
    var s' := ListenSaveRunState(s);
    KeptAttempt(cfg, s);
    CloseKeepsCreated(s);
    KeepEarlyOnClose(s);
    OutsideWindow(s, s'.listener);
  }

  lemma KeptAttempt(cfg: Config, s: State)
    requires s.listener.SaveRun? && ListenerOk(cfg, s.tasks, s.taskRuns, s.listener) && RunsOk(s.tasks, s.taskRuns)
    ensures var run := s.listener.run; run.id in s.taskRuns && s.taskRuns[run.id].taskId == run.taskId
  {
  }

  lemma AttemptsAfterClose(s: State, r: DagRunId)
    requires s.listener.SaveRun?
    requires s.listener.run.id in s.taskRuns && s.taskRuns[s.listener.run.id].taskId == s.listener.run.taskId
    ensures HasAttempt(s.tasks, ListenSaveRunState(s).taskRuns, r) == HasAttempt(s.tasks, s.taskRuns, r)
  {
    var after := ListenSaveRunState(s).taskRuns;
    assert forall q :: q in after <==> q in s.taskRuns;
    assert forall q :: q in after ==> after[q].taskId == s.taskRuns[q].taskId;
    if HasAttempt(s.tasks, s.taskRuns, r) {
      var q :| q in s.taskRuns && s.taskRuns[q].taskId in s.tasks && s.tasks[s.taskRuns[q].taskId].dagRunId == r;
      assert q in after && s.tasks[after[q].taskId].dagRunId == r;
    }
  }

  lemma CloseKeepsCreated(s: State)
    requires s.listener.SaveRun? && CreatedOk(s.dagRuns, s.tasks, s.taskRuns, s.sent, s.pump)
    requires s.listener.run.id in s.taskRuns && s.taskRuns[s.listener.run.id].taskId == s.listener.run.taskId
    ensures var s' := ListenSaveRunState(s); CreatedOk(s'.dagRuns, s'.tasks, s'.taskRuns, s'.sent, s'.pump)
  {
    hide HasAttempt;
    forall r ensures HasAttempt(s.tasks, ListenSaveRunState(s).taskRuns, r) == HasAttempt(s.tasks, s.taskRuns, r) {
      AttemptsAfterClose(s, r);
    }
  }

  lemma KeepEarlyOnClose(s: State)
    requires s.listener.SaveRun? && EarlyOk(s.tasks, s.taskRuns, s.plans, s.early)
    requires s.listener.run.id in s.taskRuns && s.taskRuns[s.listener.run.id].taskId == s.listener.run.taskId
    ensures var s' := ListenSaveRunState(s); EarlyOk(s'.tasks, s'.taskRuns, s'.plans, s'.early)
  {
    hide HasAttempt;
    forall r ensures HasAttempt(s.tasks, ListenSaveRunState(s).taskRuns, r) == HasAttempt(s.tasks, s.taskRuns, r) {
      AttemptsAfterClose(s, r);
    }
  }

  /** Moves of the listener outside any refresh window. */
  lemma OutsideWindow(s: State, l: Listener)
    requires StatusOk(s.dagRuns, s.tasks, s.early, s.late, s.listener)
    requires forall r :: !Window(s.listener, r) && !Window(l, r)
    ensures StatusOk(s.dagRuns, s.tasks, s.early, s.late, l)
  {
    hide DerivedStatus, SomeFailed;
    assert l.ListTasks? || l.SaveDag? ==> Window(l, l.m.dagRunId);
    assert s.listener.SaveDag? ==> Window(s.listener, s.listener.m.dagRunId);
  }

  lemma StatusListenGetTask(cfg: Config, s: State)
    requires Inv(cfg, s) && StatusInv(s) && s.listener.GetTask?
    ensures StatusInv(ListenGetTaskState(cfg, s))
  {
    hide TasksOk, DagRunsOk, RunsOk, PlansOk, MembersOk, Shape, ShapesOk, NumbersOk, OrderOk, QueueOk, AttemptOk, CacheOk,
         CacheCovers, RequestsOk, MessageOk, ListenerOk, DagReadOk, FanOutOk, CreatedOk, MarkOk, RefreshOk, AgreementOk, LateOk, EarlyOk, DerivedStatus, SomeFailed, HasAttempt;
    HandledAttempt(s);
    OutsideWindow(s, ListenGetTaskState(cfg, s).listener);
  }

  lemma StatusListenSaveTask(cfg: Config, s: State, ids: seq<TaskId>)
    requires Inv(cfg, s) && StatusInv(s) && s.listener.SaveTask? && FanOutIds(cfg, s, s.listener.m, ids)
    ensures StatusInv(ListenSaveTaskState(cfg, s, ids))
  {
    hide TasksOk, DagRunsOk, RunsOk, PlansOk, MembersOk, Shape, ShapesOk, NumbersOk, OrderOk, QueueOk, AttemptOk, CacheOk,
         CacheCovers, RequestsOk, MessageOk, ListenerOk, DagReadOk, FanOutOk, CreatedOk, MarkOk, RefreshOk, AgreementOk, LateOk, EarlyOk, DerivedStatus, SomeFailed, HasAttempt, AfterSaveTask, FanOutIds, FannedOutOrigins;
    var s' := ListenSaveTaskState(cfg, s, ids);
    var t, r := s.listener.task, s.listener.m.dagRunId;
    SavedRow(cfg, s);
    HandledAttempt(s);
    HandledRun(s);
    KeepAttempts(s, t, s.pump);
    KeepEarly(s, s'.tasks, s'.plans);
    RunningRunNotDone(s.tasks, t.id);
    forall x | x != r
      ensures DerivedStatus(s'.tasks, x) == DerivedStatus(s.tasks, x) && SomeFailed(s'.tasks, x) == SomeFailed(s.tasks, x)
    {
      DerivedElsewhere(s.tasks, t, x);
    }
    forall x | SomeFailed(s.tasks, x) ensures SomeFailed(s'.tasks, x) { FailureRemains(s.tasks, t, x); }
    EnterWindow(s, s'.tasks, s'.listener);
  }

  lemma RunningRunNotDone(tasks: Tasks, k: TaskId)
    requires k in tasks && tasks[k].status.Running?
    ensures !DerivedStatus(tasks, tasks[k].dagRunId).Success?
  {
  }

  lemma EnterWindow(s: State, tasks: Tasks, l: Listener)
    requires StatusOk(s.dagRuns, s.tasks, s.early, s.late, s.listener) && s.listener.SaveTask?
    requires (l.FanOut? || l.GetDag?) && l.m == s.listener.m
    requires l.m.dagRunId in s.dagRuns && !s.dagRuns[l.m.dagRunId].status.Created?
    requires !DerivedStatus(s.tasks, l.m.dagRunId).Success?
    requires forall x :: x != l.m.dagRunId ==>
               DerivedStatus(tasks, x) == DerivedStatus(s.tasks, x) && SomeFailed(tasks, x) == SomeFailed(s.tasks, x)
    requires forall x :: SomeFailed(s.tasks, x) ==> SomeFailed(tasks, x)
    ensures StatusOk(s.dagRuns, tasks, s.early, s.late, l)
  {
    hide DerivedStatus, SomeFailed;
    assert forall r :: !Window(s.listener, r);
  }

  lemma StatusListenFanOut(cfg: Config, s: State)
    requires Inv(cfg, s) && StatusInv(s) && s.listener.FanOut?
    ensures StatusInv(ListenFanOutState(s))
  {
    hide TasksOk, DagRunsOk, RunsOk, PlansOk, MembersOk, Shape, ShapesOk, NumbersOk, OrderOk, QueueOk, AttemptOk, CacheOk,
         CacheCovers, RequestsOk, MessageOk, ListenerOk, DagReadOk, FanOutOk, CreatedOk, MarkOk, RefreshOk, AgreementOk, LateOk, EarlyOk, DerivedStatus, SomeFailed, HasAttempt;
    var s' := ListenFanOutState(s);
    if s.listener.rest != [] {
      var t, r := s.listener.rest[0], s.listener.m.dagRunId;
      NextFannedOut(s);
      KeepAttempts(s, t, s.pump);
      KeepEarly(s, s'.tasks, s'.plans);
      forall x | x != r ensures DerivedStatus(s'.tasks, x) == DerivedStatus(s.tasks, x) { DerivedElsewhere(s.tasks, t, x); }
      forall x ensures SomeFailed(s'.tasks, x) == SomeFailed(s.tasks, x) { NewPendingRow(s.tasks, t, x); }
    }
    StayInWindow(s, s'.tasks, s'.listener);
  }

  lemma NextFannedOut(s: State)
    requires s.listener.FanOut? && s.listener.rest != [] && FanOutOk(s.tasks, s.plans, s.origins, s.listener)
    ensures var t := s.listener.rest[0];
            t.id !in s.tasks && t.status.Pending? && t.dagRunId == s.listener.m.dagRunId
  {
  }

  lemma StayInWindow(s: State, tasks: Tasks, l: Listener)
    requires StatusOk(s.dagRuns, s.tasks, s.early, s.late, s.listener)
    requires s.listener.FanOut? && (l.FanOut? || l.GetDag?) && l.m == s.listener.m
    requires forall x :: x != l.m.dagRunId ==> DerivedStatus(tasks, x) == DerivedStatus(s.tasks, x)
    requires forall x :: SomeFailed(tasks, x) == SomeFailed(s.tasks, x)
    ensures StatusOk(s.dagRuns, tasks, s.early, s.late, l)
  {
    hide DerivedStatus, SomeFailed;
    assert forall r :: Window(s.listener, r) <==> Window(l, r);
  }

  lemma StatusListenTasks(cfg: Config, s: State)
    requires Inv(cfg, s) && StatusInv(s) && s.listener.ListTasks?
    ensures StatusInv(ListenTasksState(s))
  {
    hide TasksOk, DagRunsOk, RunsOk, PlansOk, MembersOk, Shape, ShapesOk, NumbersOk, OrderOk, QueueOk, AttemptOk, CacheOk,
         CacheCovers, RequestsOk, MessageOk, ListenerOk, DagReadOk, FanOutOk, CreatedOk, MarkOk, EarlyOk, DerivedStatus, SomeFailed, HasAttempt;
    DerivedIsFailed(s.tasks, s.listener.m.dagRunId);
  }

  lemma DerivedIsFailed(tasks: Tasks, r: DagRunId)
    ensures DerivedStatus(tasks, r).Failed? <==> SomeFailed(tasks, r)
    ensures var d := DerivedStatus(tasks, r); d.Failed? || d.Success? || d.Running?
  {
  }

  lemma StatusListenSaveDag(cfg: Config, s: State)
    requires Inv(cfg, s) && StatusInv(s) && s.listener.SaveDag?
    ensures StatusInv(ListenSaveDagState(s))
  {
    hide TasksOk, DagRunsOk, RunsOk, PlansOk, MembersOk, Shape, ShapesOk, NumbersOk, OrderOk, QueueOk, AttemptOk, CacheOk,
         CacheCovers, RequestsOk, MessageOk, ListenerOk, DagReadOk, FanOutOk, CreatedOk, MarkOk, StatusOk, EarlyOk, HasAttempt;
    HandledRun(s);
    RefreshKeepsCreated(s);
    RefreshKeepsStatus(s);
  }

  lemma RefreshKeepsCreated(s: State)
    requires s.listener.SaveDag? && DagReadOk(s.dagRuns, s.listener) && MarkOk(s.dagRuns, s.pump)
    requires CreatedOk(s.dagRuns, s.tasks, s.taskRuns, s.sent, s.pump) && StatusOk(s.dagRuns, s.tasks, s.early, s.late, s.listener)
    requires !s.dagRuns[s.listener.m.dagRunId].status.Created?
    ensures var s' := ListenSaveDagState(s);
            CreatedOk(s'.dagRuns, s'.tasks, s'.taskRuns, s'.sent, s'.pump) && MarkOk(s'.dagRuns, s'.pump)
  {
    hide AgreementOk, LateOk, HasAttempt, SomeFailed, DerivedStatus;
    RefreshedId(s);
  }

  lemma RefreshKeepsStatus(s: State)
    requires s.listener.SaveDag? && DagReadOk(s.dagRuns, s.listener) && StatusOk(s.dagRuns, s.tasks, s.early, s.late, s.listener)
    ensures var s' := ListenSaveDagState(s); StatusOk(s'.dagRuns, s'.tasks, s'.early, s'.late, s'.listener)
  {
    hide SomeFailed, DerivedStatus;
    RefreshedId(s);
  }

  lemma RefreshedId(s: State)
    requires s.listener.SaveDag? && DagReadOk(s.dagRuns, s.listener)
    ensures s.listener.dag.id == s.listener.m.dagRunId
  {
  }

  // ----- the induction -----

  lemma StepKeepsStatus(cfg: Config, s: State, step: Step)
    requires Inv(cfg, s) && StatusInv(s) && Enabled(cfg, s, step)
    ensures StatusInv(Apply(cfg, s, step))
  {
    hide Inv, StatusInv;
    match step
    case PlanStart(run, tenant, input, ids) => StatusPlanStart(cfg, s, run, tenant, input, ids);
    case PlanSave(run) => StatusPlanSave(cfg, s, run);
    case PumpSaveRun => StatusPumpSaveRun(cfg, s);
    case PumpSaveTask => StatusPumpSaveTask(cfg, s);
    case PumpGetDag => StatusPumpGetDag(cfg, s);
    case PumpSaveDag => StatusPumpSaveDag(cfg, s);
    case ListenSaveRun => StatusListenSaveRun(cfg, s);
    case ListenGetTask => StatusListenGetTask(cfg, s);
    case ListenSaveTask(ids) => StatusListenSaveTask(cfg, s, ids);
    case ListenFanOut => StatusListenFanOut(cfg, s);
    case ListenTasks => StatusListenTasks(cfg, s);
    case ListenSaveDag => StatusListenSaveDag(cfg, s);
    case ListenGetDag => StatusListenGetDag(cfg, s);
    case _ => StatusQuietStep(cfg, s, step);
  }

  lemma StatusQuietStep(cfg: Config, s: State, step: Step)
    requires StatusInv(s) && Enabled(cfg, s, step)
    requires step.PumpList? || step.PumpCheck? || step.PumpCount? || step.PumpPublish? || step.Receive?
             || step.ListenGetRun? || step.ListenCount?
    ensures StatusInv(Apply(cfg, s, step))
  {
    hide CreatedOk, MarkOk, RefreshOk, AgreementOk, LateOk, EarlyOk, Apply, Enabled;
    Footprint(cfg, s, step);
    if step.IsPump() {
      QuietPumpStep(cfg, s, step);
    } else {
      QuietListenStep(cfg, s, step);
    }
  }

  lemma QuietPumpStep(cfg: Config, s: State, step: Step)
    requires Enabled(cfg, s, step) && (step.PumpList? || step.PumpCheck? || step.PumpCount? || step.PumpPublish?)
    requires CreatedOk(s.dagRuns, s.tasks, s.taskRuns, s.sent, s.pump)
    ensures var s' := Apply(cfg, s, step); CreatedOk(s.dagRuns, s.tasks, s.taskRuns, s'.sent, s'.pump) && MarkOk(s.dagRuns, s'.pump)
  {
    hide HasAttempt, IsReady, SiblingsUsed, IsPendingList;
  }

  lemma QuietListenStep(cfg: Config, s: State, step: Step)
    requires Enabled(cfg, s, step) && (step.Receive? || step.ListenGetRun? || step.ListenCount?)
    requires StatusOk(s.dagRuns, s.tasks, s.early, s.late, s.listener)
    ensures var s' := Apply(cfg, s, step);
            StatusOk(s.dagRuns, s.tasks, s.early, s.late, s'.listener)
  {
    hide DerivedStatus, SomeFailed, RefreshOk, AgreementOk, LateOk;
    OutsideWindow(s, Apply(cfg, s, step).listener);
  }

  lemma StatusListenGetDag(cfg: Config, s: State)
    requires Inv(cfg, s) && StatusInv(s) && s.listener.GetDag?
    ensures StatusInv(ListenGetDagState(s))
  {
    hide TasksOk, DagRunsOk, RunsOk, PlansOk, MembersOk, Shape, ShapesOk, NumbersOk, OrderOk, QueueOk, AttemptOk, CacheOk,
         CacheCovers, RequestsOk, MessageOk, ListenerOk, DagReadOk, FanOutOk, CreatedOk, MarkOk, RefreshOk, AgreementOk, LateOk, EarlyOk, DerivedStatus, SomeFailed, HasAttempt;
    HandledRun(s);
    ReadInWindow(s, ListenGetDagState(s).listener);
  }

  lemma ReadInWindow(s: State, l: Listener)
    requires StatusOk(s.dagRuns, s.tasks, s.early, s.late, s.listener)
    requires s.listener.GetDag? && l.ListTasks? && l.m == s.listener.m
    requires l.m.dagRunId in s.dagRuns && l.dag == s.dagRuns[l.m.dagRunId]
    ensures StatusOk(s.dagRuns, s.tasks, s.early, s.late, l)
  {
    hide DerivedStatus, SomeFailed;
    assert forall r :: Window(s.listener, r) <==> Window(l, r);
  }

  lemma {:induction false} ExecutionKeepsStatus(cfg: Config, states: seq<State>, i: nat)
    requires IsExecution(cfg, states) && i < |states|
    ensures StatusInv(states[i])
  {
    hide Inv, StatusInv, Enabled, Apply;
    if i == 0 {
      InitStatusInv();
    } else {
      ExecutionKeepsStatus(cfg, states, i - 1);
      ExecutionKeepsInv(cfg, states, i - 1);
      assert Next(cfg, states[i - 1], states[i - 1 + 1]);
      var step :| Enabled(cfg, states[i - 1], step) && states[i] == Apply(cfg, states[i - 1], step);
      StepKeepsStatus(cfg, states[i - 1], step);
    }
  }

  lemma ReachableStatus(cfg: Config, s: State)
    requires Reachable(cfg, s)
    ensures StatusInv(s)
  {
    hide StatusInv, Next;
    var states :| IsExecution(cfg, states) && states[|states| - 1] == s;
    ExecutionKeepsStatus(cfg, states, |states| - 1);
  }

  // ----- what the stored status tells -----

  /** Outside its refresh a run is Created and nothing of it was dispatched but the attempt the pump is marking, or its
      stored status is the one its tasks derive if and only if the run is not late. A late run is stored as Success with an
      unfinished task and without a failed one, and was dispatched from before its plan was fully saved. */
  lemma StoredStatusAgrees(cfg: Config, s: State, r: DagRunId)
    requires Reachable(cfg, s) && r in s.dagRuns && !Window(s.listener, r)
    ensures s.dagRuns[r].status.Created? ==>
              r !in s.late
              && forall q ::
                   (q in s.taskRuns && s.taskRuns[q].taskId in s.tasks && s.tasks[s.taskRuns[q].taskId].dagRunId == r)
                   ==> Marking(s.pump.pc, q)
    ensures !s.dagRuns[r].status.Created? ==> (s.dagRuns[r].status == DerivedStatus(s.tasks, r) <==> r !in s.late)
    ensures r in s.late ==> r in s.early && s.dagRuns[r].status.Success? && DerivedStatus(s.tasks, r).Running?
  {
    hide RefreshOk, MarkOk, EarlyOk, HasAttempt, SomeFailed, DerivedStatus, Reachable;
    ReachableStatus(cfg, s);
    DerivedIsFailed(s.tasks, r);
    assert s.listener.SaveDag? ==> Window(s.listener, s.listener.m.dagRunId);
  }

  /** What a refresh is about to write is what the tasks derive if and only if the run is not late; a write of a late run
      makes it Success although a task is unfinished. */
  lemma RefreshWriteAgrees(cfg: Config, s: State)
    requires Reachable(cfg, s) && s.listener.SaveDag?
    ensures var s', r := Apply(cfg, s, ListenSaveDag), s.listener.m.dagRunId;
            && r in s'.dagRuns && (Agrees(s'.dagRuns, s'.tasks, r) <==> r !in s.late)
            && (r in s.late ==> s'.dagRuns[r].status.Success? && DerivedStatus(s'.tasks, r).Running?)
  {
    hide TasksOk, DagRunsOk, RunsOk, PlansOk, MembersOk, Shape, ShapesOk, NumbersOk, OrderOk, QueueOk, AttemptOk, CacheOk,
         CacheCovers, RequestsOk, MessageOk, ListenerOk, FanOutOk, CreatedOk, MarkOk, EarlyOk, HasAttempt, SomeFailed, DerivedStatus, Reachable;
    ReachableInv(cfg, s);
    ReachableStatus(cfg, s);
    RefreshedId(s);
    DerivedIsFailed(s.tasks, s.listener.m.dagRunId);
  }

  /** A run is `early` only if some attempt of it was saved before its plan was complete. */
  lemma DispatchedAfterPlanning(cfg: Config, s: State, r: DagRunId)
    requires Reachable(cfg, s) && r in s.plans && r !in s.early && s.plans[r].saved < 5
    ensures !HasAttempt(s.tasks, s.taskRuns, r) && r in s.dagRuns && s.dagRuns[r].status.Created?
  {
    hide TasksOk, DagRunsOk, RunsOk, PlansOk, MembersOk, Shape, ShapesOk, NumbersOk, OrderOk, QueueOk, AttemptOk, CacheOk,
         CacheCovers, RequestsOk, MessageOk, ListenerOk, DagReadOk, FanOutOk, RefreshOk, MarkOk, AgreementOk, LateOk, HasAttempt, SomeFailed, DerivedStatus, Reachable;
    ReachableStatus(cfg, s);
    ReachableInv(cfg, s);
    PlanHasFive(s, r);
    NotYetDispatched(s, r);
  }

  lemma PlanHasFive(s: State, r: DagRunId)
    requires PlansOk(s.tasks, s.plans, s.origins) && r in s.plans
    ensures |s.plans[r].tasks| == 5
  {
    assert PlanOk(s.tasks, s.origins, r, s.plans[r]);
  }

  /** Failed is absorbing in every execution. Success changes in exactly one step: the write of a refresh of that run,
      which happens only to runs dispatched from before their plan was fully saved. */
  lemma FinalStatusStays(cfg: Config, s: State, step: Step, r: DagRunId)
    requires Reachable(cfg, s) && Enabled(cfg, s, step) && r in s.dagRuns
    ensures r in Apply(cfg, s, step).dagRuns
    ensures s.dagRuns[r].status.Failed? ==> Apply(cfg, s, step).dagRuns[r] == s.dagRuns[r]
    ensures s.dagRuns[r].status.Success? && r !in s.early ==> Apply(cfg, s, step).dagRuns[r] == s.dagRuns[r]
    ensures s.dagRuns[r].status.Success? ==>
              (Apply(cfg, s, step).dagRuns[r].status.Success? <==> !(step.ListenSaveDag? && s.listener.m.dagRunId == r))
  {
    hide Enabled, Apply, Inv, StatusInv, Reachable;
    Footprint(cfg, s, step);
    ReachableStatus(cfg, s);
    ReachableInv(cfg, s);
    RefreshParts(cfg, s);
    if step.PlanStart? || step.PumpSaveDag? || step.ListenSaveDag? {
      FinalStatusWrites(cfg, s, step, r);
    }
  }

  lemma FinalStatusWrites(cfg: Config, s: State, step: Step, r: DagRunId)
    requires MarkOk(s.dagRuns, s.pump) && StatusOk(s.dagRuns, s.tasks, s.early, s.late, s.listener) && DagReadOk(s.dagRuns, s.listener)
    requires Enabled(cfg, s, step) && r in s.dagRuns && (step.PlanStart? || step.PumpSaveDag? || step.ListenSaveDag?)
    ensures r in Apply(cfg, s, step).dagRuns
    ensures s.dagRuns[r].status.Failed? ==> Apply(cfg, s, step).dagRuns[r] == s.dagRuns[r]
    ensures s.dagRuns[r].status.Success? && r !in s.early ==> Apply(cfg, s, step).dagRuns[r] == s.dagRuns[r]
    ensures s.dagRuns[r].status.Success? ==>
              (Apply(cfg, s, step).dagRuns[r].status.Success? <==> !(step.ListenSaveDag? && s.listener.m.dagRunId == r))
  {
    hide MarkOk, StatusOk, DagReadOk, Apply, Enabled;
    if step.ListenSaveDag? {
      RefreshIsEnabled(cfg, s, step);
      RefreshWrites(cfg, s, r);
    } else {
      OtherWrites(cfg, s, step, r);
    }
  }

  lemma RefreshIsEnabled(cfg: Config, s: State, step: Step)
    requires Enabled(cfg, s, step) && step.ListenSaveDag?
    ensures step == ListenSaveDag && s.listener.SaveDag?
  {
  }

  lemma RefreshParts(cfg: Config, s: State)
    requires Inv(cfg, s) && StatusInv(s)
    ensures MarkOk(s.dagRuns, s.pump) && StatusOk(s.dagRuns, s.tasks, s.early, s.late, s.listener) && DagReadOk(s.dagRuns, s.listener)
  {
    hide TasksOk, DagRunsOk, RunsOk, PlansOk, MembersOk, ShapesOk, NumbersOk, OrderOk, QueueOk, AttemptOk, CacheOk,
         CacheCovers, RequestsOk, MessageOk, ListenerOk, DagReadOk, FanOutOk, CreatedOk, EarlyOk, MarkOk, StatusOk;
  }

  /** Planning and marking write no row that is past Created. */
  lemma OtherWrites(cfg: Config, s: State, step: Step, r: DagRunId)
    requires MarkOk(s.dagRuns, s.pump) && Enabled(cfg, s, step) && r in s.dagRuns && (step.PlanStart? || step.PumpSaveDag?)
    ensures r in Apply(cfg, s, step).dagRuns
    ensures !s.dagRuns[r].status.Created? ==> Apply(cfg, s, step).dagRuns[r] == s.dagRuns[r]
  {
    hide FreshIds, PlannedOrigins, PlannedTasks;
  }

  /** A refresh writes its own run only, a status that differs, never a failed one's and Success only of early runs. */
  lemma RefreshWrites(cfg: Config, s: State, r: DagRunId)
    requires StatusOk(s.dagRuns, s.tasks, s.early, s.late, s.listener) && DagReadOk(s.dagRuns, s.listener)
    requires Enabled(cfg, s, ListenSaveDag) && r in s.dagRuns
    ensures r in Apply(cfg, s, ListenSaveDag).dagRuns
    ensures s.dagRuns[r].status.Failed? || s.listener.m.dagRunId != r || (s.dagRuns[r].status.Success? && r !in s.early) ==>
              Apply(cfg, s, ListenSaveDag).dagRuns[r] == s.dagRuns[r]
    ensures s.listener.m.dagRunId == r ==> Apply(cfg, s, ListenSaveDag).dagRuns[r].status != s.dagRuns[r].status
  {
    hide DerivedStatus, SomeFailed, Apply, LateOk;
    ListenSteps(cfg, s);
    RefreshedId(s);
    assert Window(s.listener, s.listener.m.dagRunId);
  }

  /** After a planned task was saved, stored and derived status agree if and only if the stored status is that of an
      unfinished run; outside a refresh, if and only if they agreed before and the stored status was not Success. */
  lemma LateSaveKeepsAgreement(cfg: Config, s: State, r: DagRunId)
    requires Reachable(cfg, s) && Enabled(cfg, s, PlanSave(r)) && r in s.dagRuns
    ensures var s' := Apply(cfg, s, PlanSave(r));
            && (!Window(s.listener, r) ==>
                  (Agrees(s'.dagRuns, s'.tasks, r) <==> Agrees(s.dagRuns, s.tasks, r) && !s.dagRuns[r].status.Success?))
            && (Agrees(s'.dagRuns, s'.tasks, r) <==>
                  s.dagRuns[r].status == if SomeFailed(s.tasks, r) then DagRunStatus.Failed else DagRunStatus.Running)
  {
    hide TasksOk, DagRunsOk, RunsOk, PlansOk, MembersOk, Shape, ShapesOk, NumbersOk, OrderOk, QueueOk, AttemptOk, CacheOk,
         CacheCovers, RequestsOk, MessageOk, ListenerOk, DagReadOk, FanOutOk, Reachable, HasAttempt, MarkOk, EarlyOk, DerivedStatus, SomeFailed;
    ReachableInv(cfg, s);
    ReachableStatus(cfg, s);
    NextPlanned(s, r);
    WithPendingRow(s.tasks, s.plans[r].tasks[s.plans[r].saved]);
    DerivedIsFailed(s.tasks, r);
    if !Window(s.listener, r) {
      StoredStatusAgrees(cfg, s, r);
    }
  }
}
