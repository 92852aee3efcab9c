/** Concrete executions in which a run is stored as Success although four of its tasks were never dispatched. */
module WorkflowLateSave {
  import opened Wrappers
  import opened WorkflowTypes
  import opened WorkflowMachine
  import opened WorkflowStatus
  import opened WorkflowFinality
  import Json

  const IDS: seq<TaskId> := [0, 1, 2, 3, 4]
  const ROW := Task(0, 0, 0, Extractor, TaskStatus.Pending, Json.Null, None)
  const RUN := TaskRun(0, 0, 0, TaskRunStatus.Running, 0, None)
  const REQUEST := ReadyTask(0, 0, 0, 0, Extractor, Json.Null)
  const RESULT := WorkerStatus.Success(0, 0, 0, None)
  const DAG := DagRun(0, 0, DagRunStatus.Created, Json.Null)

  ghost function PlannedState(): State { PlanStartState(INIT, 0, 0, Json.Null, IDS) }

  /** The plan has saved its extractor only. */
  ghost function HalfSavedState(): State { PlanSaveState(PlannedState(), 0) }

  ghost function StateWith(row: Task, runs: map<TaskRunId, TaskRun>, dag: DagRun, sent: set<ReadyTask>, early: set<DagRunId>,
                      pump: Pump, listener: Listener): State {
    HalfSavedState().(tasks := map[0 := row], taskRuns := runs, dagRuns := map[0 := dag], sent := sent, early := early,
                  pump := pump, listener := listener)
  }

  lemma InitReachable(cfg: Config)
    ensures Reachable(cfg, INIT)
  {
    hide Next;
    assert IsExecution(cfg, [INIT]);
    assert [INIT][|[INIT]| - 1] == INIT;
  }

  lemma PlanCanStart(cfg: Config)
    ensures Enabled(cfg, INIT, PlanStart(0, 0, Json.Null, IDS))
    ensures Apply(cfg, INIT, PlanStart(0, 0, Json.Null, IDS)) == PlannedState()
  {
    hide PlanStartState;
  }

  lemma Planned(cfg: Config)
    ensures Reachable(cfg, PlannedState())
    ensures PlannedState().plans.Keys == {0} && |PlannedState().plans[0].tasks| == 5 && PlannedState().plans[0].saved == 0
    ensures PlannedState().plans[0].tasks[0] == ROW
    ensures PlannedState() == INIT.(dagRuns := map[0 := DAG], plans := PlannedState().plans, origins := PlannedState().origins)
  {
    InitReachable(cfg);
    PlanCanStart(cfg);
    hide Reachable, Enabled, Apply;
    Extend(cfg, INIT, PlanStart(0, 0, Json.Null, IDS));
  }

  lemma HalfSaved(cfg: Config)
    ensures Reachable(cfg, HalfSavedState())
    ensures HalfSavedState() == StateWith(ROW, map[], DAG, {}, {}, IDLE_PUMP, Listener.Idle)
    ensures HalfSavedState().late == {} && HalfSavedState().plans.Keys == {0}
    ensures |HalfSavedState().plans[0].tasks| == 5 && HalfSavedState().plans[0].saved == 1
  {
    Planned(cfg);
    hide PlannedState, Reachable;
    Extend(cfg, PlannedState(), PlanSave(0));
  }

  const CACHE: map<DagRunId, map<TaskId, Task>> := map[0 := map[0 := ROW]]

  const ROW_RUNNING := ROW.(status := TaskStatus.Running)
  const ROW_DONE := ROW.(status := TaskStatus.Success)
  const RUN_DONE := RUN.(status := TaskRunStatus.Success)
  const DAG_RUNNING := DAG.(status := DagRunStatus.Running)
  const DAG_DONE := DAG.(status := DagRunStatus.Success)

  lemma Overwrite<V>(v: V, w: V)
    ensures map[0 := v][0 := w] == map[0 := w]
  {
  }

  /** The pump finds the extractor ready and saves its attempt. */
  lemma Started(cfg: Config) returns (s: State)
    requires cfg.maxBatch.None?
    ensures Reachable(cfg, s)
    ensures s == StateWith(ROW, map[0 := RUN], DAG, {}, {0}, Pump(PumpPc.SaveTask(RUN), [ROW], CACHE, []), Listener.Idle)
  {
    hide Reachable, PlannedState, HalfSavedState;
    HalfSaved(cfg);
    Extend(cfg, HalfSavedState(), PumpList([ROW]));
    s := StateWith(ROW, map[], DAG, {}, {}, Pump(PumpPc.Check, [ROW], map[], []), Listener.Idle);
    assert Siblings(s.tasks, 0) == map[0 := ROW];
    Extend(cfg, s, PumpCheck);
    s := StateWith(ROW, map[], DAG, {}, {}, Pump(PumpPc.Count, [ROW], CACHE, []), Listener.Idle);
    assert RunsOf(s.taskRuns, 0) == {};
    Extend(cfg, s, PumpCount(0));
    s := StateWith(ROW, map[], DAG, {}, {}, Pump(PumpPc.SaveRun(RUN), [ROW], CACHE, []), Listener.Idle);
    Extend(cfg, s, PumpSaveRun);
    s := Apply(cfg, s, PumpSaveRun);
    assert s.taskRuns == map[0 := RUN];
    assert s.early == {0};
  }

  /** The round ends with the request published and the run marked Running. */
  lemma Published(cfg: Config) returns (s: State)
    requires cfg.maxBatch.None?
    ensures Reachable(cfg, s)
    ensures s == StateWith(ROW_RUNNING, map[0 := RUN], DAG_RUNNING, {REQUEST}, {0}, IDLE_PUMP, Listener.Idle)
  {
    hide Reachable, PlannedState, HalfSavedState;
    s := Started(cfg);
    HalfSaved(cfg);
    Overwrite(ROW, ROW_RUNNING);
    Overwrite(DAG, DAG_RUNNING);
    Extend(cfg, s, PumpSaveTask);
    s := Apply(cfg, s, PumpSaveTask);
    Extend(cfg, s, PumpGetDag);
    s := Apply(cfg, s, PumpGetDag);
    Extend(cfg, s, PumpSaveDag);
    s := Apply(cfg, s, PumpSaveDag);
    assert s.pump == Pump(PumpPc.Check, [], CACHE, [REQUEST]);
    Extend(cfg, s, PumpCheck);
    s := Apply(cfg, s, PumpCheck);
    Extend(cfg, s, PumpPublish);
    s := Apply(cfg, s, PumpPublish);
    assert s.sent == {REQUEST};
    Extend(cfg, s, PumpPublish);
    s := Apply(cfg, s, PumpPublish);
  }

  /** The worker succeeds and the listener stores the result. */
  lemma Stored(cfg: Config) returns (s: State)
    requires cfg.maxBatch.None?
    ensures Reachable(cfg, s)
    ensures s == StateWith(ROW_DONE, map[0 := RUN_DONE], DAG_RUNNING, {REQUEST}, {0}, IDLE_PUMP, Listener.GetDag(RESULT))
  {
    hide Reachable, PlannedState, HalfSavedState;
    s := Published(cfg);
    Overwrite(ROW_RUNNING, ROW_DONE);
    Overwrite(RUN, RUN_DONE);
    Extend(cfg, s, Receive(REQUEST, RESULT));
    s := Apply(cfg, s, Receive(REQUEST, RESULT));
    Extend(cfg, s, ListenGetRun);
    s := Apply(cfg, s, ListenGetRun);
    Extend(cfg, s, ListenSaveRun);
    s := Apply(cfg, s, ListenSaveRun);
    Extend(cfg, s, ListenGetTask);
    s := Apply(cfg, s, ListenGetTask);
    Extend(cfg, s, ListenSaveTask([]));
    assert s.origins + FannedOutOrigins([], 0) == s.origins;
    s := Apply(cfg, s, ListenSaveTask([]));
  }

  /** The run is Success while its plan is still being saved; the next planned task then arrives Pending. */
  lemma SuccessBeforePlanSaved(cfg: Config) returns (s: State)
    requires cfg.maxBatch.None?
    ensures Reachable(cfg, s) && s.listener.Idle? && 0 in s.dagRuns && s.dagRuns[0].status.Success?
    ensures Enabled(cfg, s, PlanSave(0)) && Agrees(s.dagRuns, s.tasks, 0)
    ensures var s' := Apply(cfg, s, PlanSave(0)); !Agrees(s'.dagRuns, s'.tasks, 0)
  {
    hide Reachable, PlannedState, HalfSavedState;
    s := Stored(cfg);
    HalfSaved(cfg);
    Overwrite(DAG_RUNNING, DAG_DONE);
    Extend(cfg, s, ListenGetDag);
    s := Apply(cfg, s, ListenGetDag);
    assert DerivedStatus(s.tasks, 0) == DagRunStatus.Success;
    Extend(cfg, s, ListenTasks);
    s := Apply(cfg, s, ListenTasks);
    Extend(cfg, s, ListenSaveDag);
    s := Apply(cfg, s, ListenSaveDag);
    assert s.dagRuns == map[0 := DAG_DONE];
    LateSaveKeepsAgreement(cfg, s, 0);
  }

  /** The refresh has listed the only task saved so far. */
  lemma Refreshing(cfg: Config) returns (s: State)
    requires cfg.maxBatch.None?
    ensures Reachable(cfg, s)
    ensures s == StateWith(ROW_DONE, map[0 := RUN_DONE], DAG_RUNNING, {REQUEST}, {0}, IDLE_PUMP, Listener.SaveDag(RESULT, DAG_DONE))
  {
    hide Reachable, PlannedState, HalfSavedState, Enabled, Apply;
    s := Stored(cfg);
    HalfSaved(cfg);
    ListenSteps(cfg, s);
    Extend(cfg, s, ListenGetDag);
    s := ListenGetDagState(s);
    assert DerivedStatus(s.tasks, 0) == DagRunStatus.Success;
    ListenSteps(cfg, s);
    Extend(cfg, s, ListenTasks);
    s := ListenTasksState(s);
    assert s.late == {};
  }

  /** The next planned task arrives before a refresh writes, and the run is stored as Success when it no longer is. */
  lemma StaleRefresh(cfg: Config) returns (s: State)
    requires cfg.maxBatch.None?
    ensures Reachable(cfg, s) && s.listener.Idle? && 0 in s.dagRuns && s.dagRuns[0].status.Success?
    ensures 0 in s.late && !Agrees(s.dagRuns, s.tasks, 0)
  {
    hide Reachable, PlannedState, HalfSavedState;
    var before := Refreshing(cfg);
    HalfSaved(cfg);
    Extend(cfg, before, PlanSave(0));
    s := Apply(cfg, before, PlanSave(0));
    assert s.late == {0};
    hide Apply, Enabled;
    ListenSteps(cfg, s);
    Extend(cfg, s, ListenSaveDag);
    s := ListenSaveDagState(s);
    Overwrite(DAG_RUNNING, DAG_DONE);
    assert s.dagRuns == map[0 := DAG_DONE];
    StoredStatusAgrees(cfg, s, 0);
  }

  /** A stored Success that is taken back later. */
  lemma SuccessReverts(cfg: Config) returns (s: State, s': State)
    requires cfg.maxBatch.None?
    ensures Reachable(cfg, s) && 0 in s.dagRuns && s.dagRuns[0].status.Success?
    ensures Leads(cfg, s, s') && 0 in s'.dagRuns && !s'.dagRuns[0].status.Success?
  {
    hide Reachable, Leads;
    s := SuccessBeforePlanSaved(cfg);
    UnlimitedSuccessCanRevert(cfg, s, 0);
    var later :| Leads(cfg, s, later) && 0 in later.dagRuns && !later.dagRuns[0].status.Success?;
    s' := later;
  }
}
