/** Every step keeps the invariant, so it holds in every reachable state. */
module WorkflowSteps {
  import opened WorkflowTypes
  import opened WorkflowMachine
  import opened WorkflowInvariant
  import opened WorkflowKeeps
  import Json

  // ----- create_dag_run -----

  lemma KeepPlanStart(cfg: Config, s: State, run: DagRunId, tenant: TenantId, input: Json.Value, ids: seq<TaskId>)
    requires Inv(cfg, s) && run !in s.plans && run !in s.dagRuns && |ids| == 5 && FreshIds(s, ids)
    ensures Inv(cfg, PlanStartState(s, run, tenant, input, ids))
  {
    hide TasksOk, DagRunsOk, RunsOk, PlansOk, MembersOk, Shape, ShapesOk, NumbersOk, OrderOk, QueueOk, AttemptOk, CacheOk,
         CacheCovers, RequestsOk, MessageOk, ListenerOk, DagReadOk, FanOutOk;
    var s' := PlanStartState(s, run, tenant, input, ids);
    KeepPlans(s, run, tenant, input, ids);
    PlanStartKeepsIds(s, run, tenant, input, ids);
    PlanStartKeepsRest(s, run, tenant, input, ids);
    KeepCovers(s, s'.plans);
  }

  lemma PlanStartKeepsIds(s: State, run: DagRunId, tenant: TenantId, input: Json.Value, ids: seq<TaskId>)
    requires run !in s.plans && |ids| == 5 && FreshIds(s, ids)
    requires TasksOk(s.tasks, s.plans, s.origins) && DagRunsOk(s.dagRuns, s.plans) && DagReadOk(s.dagRuns, s.listener)
    ensures var s' := PlanStartState(s, run, tenant, input, ids);
            && TasksOk(s'.tasks, s'.plans, s'.origins) && DagRunsOk(s'.dagRuns, s'.plans)
            && DagReadOk(s'.dagRuns, s'.listener)
  {
  }

  lemma PlanStartKeepsRest(s: State, run: DagRunId, tenant: TenantId, input: Json.Value, ids: seq<TaskId>)
    requires run !in s.plans && |ids| == 5 && FreshIds(s, ids)
    requires MembersOk(s.tasks, s.plans) && CacheOk(s.tasks, s.plans, s.pump.cache)
    requires FanOutOk(s.tasks, s.plans, s.origins, s.listener)
    ensures var s' := PlanStartState(s, run, tenant, input, ids);
            && MembersOk(s'.tasks, s'.plans) && CacheOk(s'.tasks, s'.plans, s'.pump.cache)
            && FanOutOk(s'.tasks, s'.plans, s'.origins, s'.listener)
  {
    hide MembersOk, CacheOk, FanOutOk;
    var s' := PlanStartState(s, run, tenant, input, ids);
    MorePlansKeepMembers(s, s'.plans);
    MorePlansKeepCache(s, s'.plans);
    MorePlansKeepFanOut(s, s'.plans, s'.origins);
  }

  lemma MorePlansKeepMembers(s: State, plans: Plans)
    requires MembersOk(s.tasks, s.plans) && forall r :: r in s.plans ==> r in plans && plans[r] == s.plans[r]
    ensures MembersOk(s.tasks, plans)
  {
  }

  lemma MorePlansKeepCache(s: State, plans: Plans)
    requires CacheOk(s.tasks, s.plans, s.pump.cache) && forall r :: r in s.plans ==> r in plans && plans[r] == s.plans[r]
    ensures CacheOk(s.tasks, plans, s.pump.cache)
  {
  }

  lemma MorePlansKeepFanOut(s: State, plans: Plans, origins: map<TaskId, Origin>)
    requires FanOutOk(s.tasks, s.plans, s.origins, s.listener)
    requires forall r :: r in s.plans ==> r in plans && plans[r] == s.plans[r]
    requires forall x :: x in s.origins ==> x in origins && (s.origins[x].FannedOut? ==> origins[x] == s.origins[x])
    ensures FanOutOk(s.tasks, plans, origins, s.listener)
  {
  }

  lemma KeepPlans(s: State, run: DagRunId, tenant: TenantId, input: Json.Value, ids: seq<TaskId>)
    requires run !in s.plans && |ids| == 5 && FreshIds(s, ids)
    requires TasksOk(s.tasks, s.plans, s.origins) && PlansOk(s.tasks, s.plans, s.origins)
    ensures var s' := PlanStartState(s, run, tenant, input, ids); PlansOk(s'.tasks, s'.plans, s'.origins)
  {
    var s' := PlanStartState(s, run, tenant, input, ids);
    forall r | r in s'.plans ensures PlanOk(s'.tasks, s'.origins, r, s'.plans[r]) {
      if r == run {
        forall i | 0 <= i < 5 ensures ids[i] in s'.origins && s'.origins[ids[i]] == Origin.Planned(run, i) {
          assert ids[i] in ids;
          assert Position(ids, ids[i]) == i;
        }
      } else {
        assert PlanOk(s.tasks, s.origins, r, s.plans[r]);
      }
    }
  }

  /** New plans, and progress of old ones, do not affect the cached listings of known runs. */
  lemma KeepCovers(s: State, plans: Plans)
    requires CacheCovers(s.plans, s.pump.queue, s.pump.cache)
    requires CacheOk(s.tasks, s.plans, s.pump.cache)
    requires forall r :: r in s.plans ==> r in plans && plans[r].tasks == s.plans[r].tasks
    ensures CacheCovers(plans, s.pump.queue, s.pump.cache)
  {
  }

  lemma KeepPlanSave(cfg: Config, s: State, run: DagRunId)
    requires Inv(cfg, s) && run in s.plans && s.plans[run].saved < |s.plans[run].tasks|
    ensures Inv(cfg, PlanSaveState(s, run))
  {
    hide TasksOk, DagRunsOk, RunsOk, PlansOk, MembersOk, Shape, ShapesOk, NumbersOk, OrderOk, QueueOk, AttemptOk, CacheOk,
         CacheCovers, RequestsOk, MessageOk, ListenerOk, DagReadOk, FanOutOk, PlanOk;
    var s' := PlanSaveState(s, run);
    var t := s.plans[run].tasks[s.plans[run].saved];
    NextPlanned(s, run);
    InsertKeepsIdentities(cfg, s, t, s'.plans);
    InsertKeepsRequests(s, t);
    InFlightStored(cfg, s);
    InsertKeepsShapes(cfg, s, t, s.listener);
    LaterStageIsSafe(cfg, s, run);
    InsertKeepsProgress(s, t, s'.plans);
    KeepCovers(s, s'.plans);
    KeepPlansOnSave(s, run);
    PlanSaveKeepsRest(cfg, s, run);
  }

  /** The task saved next: the position in the plan is its stage. */
  lemma NextPlanned(s: State, run: DagRunId)
    requires run in s.plans && s.plans[run].saved < |s.plans[run].tasks| && PlansOk(s.tasks, s.plans, s.origins)
    ensures var t := s.plans[run].tasks[s.plans[run].saved];
            && t.id !in s.tasks && t.id in s.origins && s.origins[t.id] == Origin.Planned(run, s.plans[run].saved)
            && t.dagRunId == run && Ordering(t.kind) == s.plans[run].saved < 5 == |s.plans[run].tasks|
            && t.status.Pending?
  {
    assert PlanOk(s.tasks, s.origins, run, s.plans[run]);
  }

  lemma InFlightStored(cfg: Config, s: State)
    requires QueueOk(s.tasks, s.pump.pc, s.pump.queue) && AttemptOk(s.taskRuns, s.sent, s.pump.pc, s.pump.queue)
    requires ListenerOk(cfg, s.tasks, s.taskRuns, s.listener)
    ensures s.pump.queue != [] ==> s.pump.queue[0].id in s.tasks
    ensures s.pump.pc.SaveTask? ==> s.pump.pc.run.taskId in s.tasks
    ensures Closing(s.listener) ==> s.listener.m.taskId in s.tasks
  {
  }

  lemma PlanSaveKeepsRest(cfg: Config, s: State, run: DagRunId)
    requires run in s.plans && s.plans[run].saved < |s.plans[run].tasks|
    requires var t := s.plans[run].tasks[s.plans[run].saved];
             t.id !in s.tasks && t.id in s.origins && s.origins[t.id].Planned? && t.status.Pending?
    requires DagRunsOk(s.dagRuns, s.plans) && QueueOk(s.tasks, s.pump.pc, s.pump.queue)
    requires ListenerOk(cfg, s.tasks, s.taskRuns, s.listener) && FanOutOk(s.tasks, s.plans, s.origins, s.listener)
    ensures var s' := PlanSaveState(s, run);
            && DagRunsOk(s'.dagRuns, s'.plans) && QueueOk(s'.tasks, s'.pump.pc, s'.pump.queue)
            && ListenerOk(cfg, s'.tasks, s'.taskRuns, s'.listener)
            && FanOutOk(s'.tasks, s'.plans, s'.origins, s'.listener)
  {
  }

  lemma KeepPlansOnSave(s: State, run: DagRunId)
    requires run in s.plans && s.plans[run].saved < |s.plans[run].tasks|
    requires PlansOk(s.tasks, s.plans, s.origins)
    ensures var s' := PlanSaveState(s, run); PlansOk(s'.tasks, s'.plans, s'.origins)
  {
    var s' := PlanSaveState(s, run);
    assert PlanOk(s.tasks, s.origins, run, s.plans[run]);
    forall r | r in s'.plans ensures PlanOk(s'.tasks, s'.origins, r, s'.plans[r]) {
      assert PlanOk(s.tasks, s.origins, r, s.plans[r]);
    }
  }

  /** The next planned task is of a later stage than every task of its run that already started. */
  lemma LaterStageIsSafe(cfg: Config, s: State, run: DagRunId)
    requires run in s.plans && s.plans[run].saved < |s.plans[run].tasks|
    requires TasksOk(s.tasks, s.plans, s.origins) && PlansOk(s.tasks, s.plans, s.origins)
    requires MembersOk(s.tasks, s.plans) && CacheOk(s.tasks, s.plans, s.pump.cache)
    ensures forall k :: k in s.tasks && s.tasks[k].dagRunId == run ==> Ordering(s.tasks[k].kind) <= s.plans[run].saved
    ensures s.plans[run].saved == 3 && run in s.pump.cache ==> !PlannedDone(s.plans, s.pump.cache[run], run, 3)
  {
    assert PlanOk(s.tasks, s.origins, run, s.plans[run]);
    forall k | k in s.tasks && s.tasks[k].dagRunId == run ensures Ordering(s.tasks[k].kind) <= s.plans[run].saved {
      if !IsPlanned(s.plans, s.tasks[k]) {
        assert PlannedDone(s.plans, s.tasks, run, 2);
      }
    }
  }

  // ----- the pump -----

  lemma KeepPumpList(cfg: Config, s: State, queue: seq<Task>)
    requires Inv(cfg, s) && s.pump.pc.Idle? && IsPendingList(cfg, s.tasks, queue)
    ensures Inv(cfg, s.(pump := Pump(PumpPc.Check, queue, map[], [])))
  {
    hide Shape, TasksOk, DagRunsOk, RunsOk, PlansOk, MembersOk, NumbersOk, MessageOk, ListenerOk, DagReadOk, FanOutOk;
  }

  lemma KeepPumpCheck(cfg: Config, s: State)
    requires Inv(cfg, s) && s.pump.pc.Check?
    ensures Inv(cfg, PumpCheckState(s))
  {
    hide TasksOk, DagRunsOk, RunsOk, PlansOk, MembersOk, Shape, ShapesOk, NumbersOk, OrderOk, QueueOk, AttemptOk, CacheOk,
         CacheCovers, RequestsOk, MessageOk, ListenerOk, DagReadOk, FanOutOk, IsReady, LowerDone;
    var s' := PumpCheckState(s);
    KeepQueueOnCheck(s);
    CheckKeepsRest(cfg, s);
    if s.pump.queue != [] {
      var t := s.pump.queue[0];
      CheckedCache(cfg, s);
      HeadIsStored(s);
      if IsReady(t, SiblingsUsed(s, t.dagRunId)) {
        OneCache(s, s'.pump.cache, t.dagRunId);
        HeadCovered(s, s'.pump, t);
        CachedReadyIsReady(s, t, s'.pump.cache[t.dagRunId]);
      }
    } else {
      CacheCoversNothing(s);
    }
    KeepOrderOnCheck(s);
  }

  lemma OneCache(s: State, cache: map<DagRunId, Tasks>, r: DagRunId)
    requires CacheOk(s.tasks, s.plans, cache) && r in cache
    ensures CacheOk(s.tasks, s.plans, map[r := cache[r]]) && r in s.plans
  {
  }

  lemma HeadCovered(s: State, pump: Pump, t: Task)
    requires CacheCovers(s.plans, pump.queue, pump.cache) && pump.queue != [] && pump.queue[0] == t
    requires t.dagRunId in pump.cache && t.dagRunId in s.plans
    ensures forall j :: 0 <= j < Ordering(t.kind) && j < |s.plans[t.dagRunId].tasks| ==>
              s.plans[t.dagRunId].tasks[j].id in pump.cache[t.dagRunId]
  {
  }

  lemma CacheCoversNothing(s: State)
    requires s.pump.queue == []
    ensures CacheCovers(s.plans, [], s.pump.cache)
  {
  }

  lemma KeepOrderOnCheck(s: State)
    requires s.pump.pc.Check? && OrderOk(s.tasks, s.taskRuns, s.pump)
    requires var s' := PumpCheckState(s);
             s'.pump.pc.Count? ==> s.pump.queue[0].id in s.tasks && LowerDone(s.tasks, s.tasks[s.pump.queue[0].id])
    ensures var s' := PumpCheckState(s); OrderOk(s'.tasks, s'.taskRuns, s'.pump)
  {
    hide IsReady, LowerDone;
  }

  lemma CheckKeepsRest(cfg: Config, s: State)
    requires s.pump.pc.Check?
    requires ShapesOk(cfg, s.tasks, s.taskRuns, s.pump.pc, s.listener)
    ensures var s' := PumpCheckState(s);
            && ShapesOk(cfg, s'.tasks, s'.taskRuns, s'.pump.pc, s'.listener)
            && AttemptOk(s'.taskRuns, s'.sent, s'.pump.pc, s'.pump.queue)
  {
    hide ShapesOk, IsReady, SiblingsUsed;
    KeepShapesOnQuietStep(cfg, s, PumpCheckState(s).pump.pc);
  }

  lemma HeadIsStored(s: State)
    requires QueueOk(s.tasks, s.pump.pc, s.pump.queue) && s.pump.queue != [] && !HeadSaved(s.pump.pc)
    ensures s.pump.queue[0].id in s.tasks && s.tasks[s.pump.queue[0].id] == s.pump.queue[0]
  {
  }

  lemma KeepQueueOnCheck(s: State)
    requires s.pump.pc.Check? && QueueOk(s.tasks, s.pump.pc, s.pump.queue)
    ensures var s' := PumpCheckState(s); QueueOk(s'.tasks, s'.pump.pc, s'.pump.queue)
  {
    var s' := PumpCheckState(s);
    if s.pump.queue != [] && s'.pump.queue != s.pump.queue {
      assert s'.pump.queue == s.pump.queue[1..];
    }
  }

  /** The listing that the check uses satisfies the cache invariant, stale or fresh. */
  lemma CheckedCache(cfg: Config, s: State)
    requires Inv(cfg, s) && s.pump.pc.Check? && s.pump.queue != []
    ensures var s' := PumpCheckState(s);
            CacheOk(s'.tasks, s'.plans, s'.pump.cache) && CacheCovers(s'.plans, s'.pump.queue, s'.pump.cache)
  {
    hide TasksOk, DagRunsOk, RunsOk, PlansOk, MembersOk, Shape, ShapesOk, NumbersOk, OrderOk, QueueOk, AttemptOk, CacheOk,
         CacheCovers, RequestsOk, MessageOk, ListenerOk, DagReadOk, FanOutOk, IsReady;
    var t := s.pump.queue[0];
    var siblings := SiblingsUsed(s, t.dagRunId);
    NothingSkipped(cfg, s);
    HeadIsStored(s);
    StoredTask(s, t.id);
    FreshListingOk(s, t.dagRunId);
    FreshListingCovers(s, t.dagRunId);
    TailCovered(s.plans, s.pump.queue, s.pump.cache[t.dagRunId := siblings]);
  }

  lemma StoredTask(s: State, k: TaskId)
    requires TasksOk(s.tasks, s.plans, s.origins) && k in s.tasks
    ensures s.tasks[k].id == k && s.tasks[k].dagRunId in s.plans && Ordering(s.tasks[k].kind) < 5
  {
  }

  lemma FreshListingOk(s: State, r: DagRunId)
    requires r in s.plans && CacheOk(s.tasks, s.plans, s.pump.cache)
    requires forall k :: k in s.tasks ==> !s.tasks[k].status.Skipped?
    ensures CacheOk(s.tasks, s.plans, s.pump.cache[r := SiblingsUsed(s, r)])
  {
  }

  lemma FreshListingCovers(s: State, r: DagRunId)
    requires r in s.plans && CacheCovers(s.plans, s.pump.queue, s.pump.cache)
    requires TasksOk(s.tasks, s.plans, s.origins) && PlansOk(s.tasks, s.plans, s.origins) && MembersOk(s.tasks, s.plans)
    requires QueueOk(s.tasks, s.pump.pc, s.pump.queue)
    ensures CacheCovers(s.plans, s.pump.queue, s.pump.cache[r := SiblingsUsed(s, r)])
  {
    hide TasksOk, PlansOk, MembersOk;
    forall i, j | 0 <= i < |s.pump.queue| && s.pump.queue[i].dagRunId == r
                  && 0 <= j < Ordering(s.pump.queue[i].kind) && j < |s.plans[r].tasks|
      ensures s.plans[r].tasks[j].id in SiblingsUsed(s, r)
    {
      EarlierPlannedStored(s, s.pump.queue[i].id, j);
    }
  }

  lemma TailCovered(plans: Plans, queue: seq<Task>, cache: map<DagRunId, Tasks>)
    requires queue != [] && CacheCovers(plans, queue, cache)
    ensures CacheCovers(plans, queue[1..], cache)
  {
    forall i | 0 <= i < |queue[1..]| ensures queue[1..][i] == queue[i + 1] {
    }
  }

  lemma NothingSkipped(cfg: Config, s: State)
    requires ShapesOk(cfg, s.tasks, s.taskRuns, s.pump.pc, s.listener)
    requires QueueOk(s.tasks, s.pump.pc, s.pump.queue) && AttemptOk(s.taskRuns, s.sent, s.pump.pc, s.pump.queue)
    requires ListenerOk(cfg, s.tasks, s.taskRuns, s.listener)
    ensures forall k :: k in s.tasks ==> !s.tasks[k].status.Skipped? && !s.tasks[k].status.Ready?
  {
    forall k | k in s.tasks ensures !s.tasks[k].status.Skipped? && !s.tasks[k].status.Ready? {
      assert Shape(cfg, s.taskRuns, k, SettledStatus(cfg, s.tasks, s.taskRuns, s.pump.pc, s.listener, k));
    }
  }

  /** Every planned task of an earlier stage than a stored task has been stored before it. */
  lemma EarlierPlannedStored(s: State, k: TaskId, j: nat)
    requires TasksOk(s.tasks, s.plans, s.origins) && PlansOk(s.tasks, s.plans, s.origins) && MembersOk(s.tasks, s.plans)
    requires k in s.tasks && j < Ordering(s.tasks[k].kind)
    ensures var r := s.tasks[k].dagRunId;
            && r in s.plans && |s.plans[r].tasks| == 5 && j < 5 && s.plans[r].tasks[j].id in s.tasks
            && s.tasks[s.plans[r].tasks[j].id].dagRunId == r
  {
    hide TasksOk, PlansOk;
    var r := s.tasks[k].dagRunId;
    StoredTask(s, k);
    PlanIsOk(s, r);
    if IsPlanned(s.plans, s.tasks[k]) {
      assert s.plans[r].tasks[Ordering(s.tasks[k].kind)].id == k;
    } else {
      assert PlannedDone(s.plans, s.tasks, r, 2);
    }
  }

  lemma KeepPumpCount(cfg: Config, s: State, newId: TaskRunId)
    requires Inv(cfg, s) && s.pump.pc.Count? && s.pump.queue != [] && newId !in s.taskRuns
    ensures Inv(cfg, PumpCountState(s, newId))
  {
    hide Shape, TasksOk, DagRunsOk, RunsOk, PlansOk, MembersOk, NumbersOk, CacheOk, CacheCovers, RequestsOk, MessageOk,
         ListenerOk, DagReadOk, FanOutOk;
  }

  lemma KeepPumpSaveRun(cfg: Config, s: State)
    requires Inv(cfg, s) && s.pump.pc.SaveRun? && s.pump.queue != []
    ensures Inv(cfg, PumpSaveRunState(s))
  {
    hide Shape, ShapesOk, TasksOk, DagRunsOk, PlansOk, MembersOk, NumbersOk, CacheOk, CacheCovers, MessageOk, DagReadOk,
         FanOutOk, OrderOk, ListenerOk;
    var s' := PumpSaveRunState(s);
    var run := s.pump.pc.run;
    HeadPending(cfg, s);
    NewAttemptShape(cfg, s.taskRuns, run);
    NewAttemptKeepsNumbers(cfg, s.tasks, s.taskRuns, run);
    KeepShapesOnSaveRun(cfg, s);
    KeepOrderOnSaveRun(s);
    KeepListenerOnSaveRun(cfg, s);
    assert RunsOk(s'.tasks, s'.taskRuns);
    assert QueueOk(s'.tasks, s'.pump.pc, s'.pump.queue);
    assert AttemptOk(s'.taskRuns, s'.sent, s'.pump.pc, s'.pump.queue);
    assert RequestsOk(s'.tasks, s'.taskRuns, s'.sent, s'.pump.ready);
  }

  /** The task about to be dispatched is settled Pending: all its attempts have failed. */
  lemma HeadPending(cfg: Config, s: State)
    requires s.pump.pc.SaveRun? && QueueOk(s.tasks, s.pump.pc, s.pump.queue)
    requires AttemptOk(s.taskRuns, s.sent, s.pump.pc, s.pump.queue)
    requires ListenerOk(cfg, s.tasks, s.taskRuns, s.listener)
    requires ShapesOk(cfg, s.tasks, s.taskRuns, s.pump.pc, s.listener)
    ensures Shape(cfg, s.taskRuns, s.pump.pc.run.taskId, TaskStatus.Pending)
  {
    hide Shape;
    var k := s.pump.queue[0].id;
    assert SettledStatus(cfg, s.tasks, s.taskRuns, s.pump.pc, s.listener, k) == TaskStatus.Pending;
  }

  lemma KeepShapesOnSaveRun(cfg: Config, s: State)
    requires s.pump.pc.SaveRun? && s.pump.queue != [] && s.pump.pc.run.id !in s.taskRuns
    requires ShapesOk(cfg, s.tasks, s.taskRuns, s.pump.pc, s.listener)
    requires Shape(cfg, PumpSaveRunState(s).taskRuns, s.pump.pc.run.taskId, TaskStatus.Running)
    ensures var s' := PumpSaveRunState(s); ShapesOk(cfg, s'.tasks, s'.taskRuns, s'.pump.pc, s'.listener)
  {
    hide Shape;
    var s', run := PumpSaveRunState(s), s.pump.pc.run;
    forall k | k in s'.tasks
      ensures Shape(cfg, s'.taskRuns, k, SettledStatus(cfg, s'.tasks, s'.taskRuns, s'.pump.pc, s'.listener, k))
    {
      if k != run.taskId {
        RunsAfterSave(s.taskRuns, run, k);
        SaveKeepsOthers(cfg, s.taskRuns, run, k, SettledStatus(cfg, s.tasks, s.taskRuns, s.pump.pc, s.listener, k));
      }
    }
  }

  lemma KeepOrderOnSaveRun(s: State)
    requires s.pump.pc.SaveRun? && s.pump.queue != [] && s.pump.pc.run.id !in s.taskRuns
    requires s.pump.pc.run.taskId == s.pump.queue[0].id && OrderOk(s.tasks, s.taskRuns, s.pump)
    ensures var s' := PumpSaveRunState(s); OrderOk(s'.tasks, s'.taskRuns, s'.pump)
  {
    var s', run := PumpSaveRunState(s), s.pump.pc.run;
    forall k | k in s'.tasks && Started(s'.taskRuns, s'.pump, k) ensures LowerDone(s'.tasks, s'.tasks[k]) {
      RunsAfterSave(s.taskRuns, run, k);
      assert Started(s.taskRuns, s.pump, k);
    }
  }

  lemma KeepListenerOnSaveRun(cfg: Config, s: State)
    requires s.pump.pc.SaveRun? && QueueOk(s.tasks, s.pump.pc, s.pump.queue)
    requires AttemptOk(s.taskRuns, s.sent, s.pump.pc, s.pump.queue)
    requires ListenerOk(cfg, s.tasks, s.taskRuns, s.listener)
    ensures var s' := PumpSaveRunState(s); ListenerOk(cfg, s'.tasks, s'.taskRuns, s'.listener)
  {
    var s', run := PumpSaveRunState(s), s.pump.pc.run;
    if Closing(s.listener) {
      RunsAfterSave(s.taskRuns, run, s.listener.m.taskId);
      assert RunsOf(s'.taskRuns, s.listener.m.taskId) == RunsOf(s.taskRuns, s.listener.m.taskId);
    }
  }

  lemma KeepPumpSaveTask(cfg: Config, s: State)
    requires Inv(cfg, s) && s.pump.pc.SaveTask? && s.pump.queue != []
    ensures Inv(cfg, PumpSaveTaskState(s))
  {
    hide Shape, DagRunsOk, RunsOk, PlansOk, MembersOk, NumbersOk, CacheOk, CacheCovers, RequestsOk, MessageOk, DagReadOk,
         OrderOk, TasksOk, AttemptOk, ShapesOk, FanOutOk;
    var s' := PumpSaveTaskState(s);
    var k := s.pump.queue[0].id;
    var t := s.pump.queue[0].(status := TaskStatus.Running);
    assert s.tasks[k].id == k;
    RewriteKeepsIdentities(cfg, s, k, t, s.origins);
    RewriteKeepsPlans(s, k, t, s.origins);
    RewriteKeepsRequests(s, k, t);
    RewriteKeepsProgress(s, k, t);
    KeepOrderOnQuietStep(s'.(pump := s.pump), s'.pump);
    assert QueueOk(s'.tasks, s'.pump.pc, s'.pump.queue);
    assert ListenerOk(cfg, s'.tasks, s'.taskRuns, s'.listener);
    KeepOnSaveTask(cfg, s);
  }

  lemma KeepOnSaveTask(cfg: Config, s: State)
    requires s.pump.pc.SaveTask? && QueueOk(s.tasks, s.pump.pc, s.pump.queue)
    requires AttemptOk(s.taskRuns, s.sent, s.pump.pc, s.pump.queue)
    requires ListenerOk(cfg, s.tasks, s.taskRuns, s.listener)
    requires ShapesOk(cfg, s.tasks, s.taskRuns, s.pump.pc, s.listener)
    requires FanOutOk(s.tasks, s.plans, s.origins, s.listener)
    ensures var s' := PumpSaveTaskState(s);
            && ShapesOk(cfg, s'.tasks, s'.taskRuns, s'.pump.pc, s'.listener)
            && AttemptOk(s'.taskRuns, s'.sent, s'.pump.pc, s'.pump.queue)
            && FanOutOk(s'.tasks, s'.plans, s'.origins, s'.listener)
  {
    hide Shape;
  }

  lemma KeepPumpGetDag(cfg: Config, s: State)
    requires Inv(cfg, s) && s.pump.pc.GetDag? && s.pump.queue != []
    ensures Inv(cfg, PumpGetDagState(s))
  {
    hide Shape, TasksOk, RunsOk, PlansOk, MembersOk, NumbersOk, CacheOk, MessageOk, ListenerOk, DagReadOk, FanOutOk;
  }

  lemma KeepPumpSaveDag(cfg: Config, s: State)
    requires Inv(cfg, s) && s.pump.pc.SaveDag? && s.pump.queue != []
    ensures Inv(cfg, PumpSaveDagState(s))
  {
    hide Shape, RunsOk, PlansOk, MembersOk, NumbersOk, CacheOk, MessageOk, ListenerOk, FanOutOk;
    var s' := PumpSaveDagState(s);
    assert DagRunsOk(s'.dagRuns, s'.plans);
    assert ShapesOk(cfg, s'.tasks, s'.taskRuns, s'.pump.pc, s'.listener);
  }

  lemma KeepPumpPublish(cfg: Config, s: State)
    requires Inv(cfg, s) && s.pump.pc.Publish?
    ensures Inv(cfg, PumpPublishState(s))
  {
    hide TasksOk, DagRunsOk, RunsOk, PlansOk, MembersOk, Shape, ShapesOk, NumbersOk, OrderOk, QueueOk, AttemptOk, CacheOk,
         CacheCovers, RequestsOk, MessageOk, ListenerOk, DagReadOk, FanOutOk;
    PublishKeepsRest(cfg, s);
    PublishKeepsPump(cfg, s);
  }

  lemma PublishKeepsRest(cfg: Config, s: State)
    requires s.pump.pc.Publish? && QueueOk(s.tasks, s.pump.pc, s.pump.queue)
    requires CacheOk(s.tasks, s.plans, s.pump.cache) && CacheCovers(s.plans, s.pump.queue, s.pump.cache)
    requires MessageOk(s.sent, s.listener)
    ensures var s' := PumpPublishState(s);
            && CacheOk(s'.tasks, s'.plans, s'.pump.cache) && CacheCovers(s'.plans, s'.pump.queue, s'.pump.cache)
            && MessageOk(s'.sent, s'.listener)
  {
  }

  lemma PublishKeepsPump(cfg: Config, s: State)
    requires s.pump.pc.Publish? && QueueOk(s.tasks, s.pump.pc, s.pump.queue)
    requires ShapesOk(cfg, s.tasks, s.taskRuns, s.pump.pc, s.listener) && OrderOk(s.tasks, s.taskRuns, s.pump)
    requires RequestsOk(s.tasks, s.taskRuns, s.sent, s.pump.ready)
    ensures var s' := PumpPublishState(s);
            && ShapesOk(cfg, s'.tasks, s'.taskRuns, s'.pump.pc, s'.listener) && OrderOk(s'.tasks, s'.taskRuns, s'.pump)
            && QueueOk(s'.tasks, s'.pump.pc, s'.pump.queue) && AttemptOk(s'.taskRuns, s'.sent, s'.pump.pc, s'.pump.queue)
            && RequestsOk(s'.tasks, s'.taskRuns, s'.sent, s'.pump.ready)
  {
    hide Shape, RequestOk, LowerDone, ShapesOk, OrderOk, RequestsOk;
    var s' := PumpPublishState(s);
    KeepShapesOnQuietStep(cfg, s, s'.pump.pc);
    KeepOrderOnQuietStep(s, s'.pump);
    KeepRequestsOnPublish(s);
  }

  /** Settled statuses depend on the pump only while it saves a task. */
  lemma KeepShapesOnQuietStep(cfg: Config, s: State, pc: PumpPc)
    requires !s.pump.pc.SaveTask? && !pc.SaveTask? && ShapesOk(cfg, s.tasks, s.taskRuns, s.pump.pc, s.listener)
    ensures ShapesOk(cfg, s.tasks, s.taskRuns, pc, s.listener)
  {
    hide Shape;
  }

  lemma KeepOrderOnQuietStep(s: State, pump: Pump)
    requires !pump.pc.Count? && !pump.pc.SaveRun? && OrderOk(s.tasks, s.taskRuns, s.pump)
    ensures OrderOk(s.tasks, s.taskRuns, pump)
  {
    hide LowerDone;
  }

  lemma KeepRequestsOnPublish(s: State)
    requires s.pump.pc.Publish? && RequestsOk(s.tasks, s.taskRuns, s.sent, s.pump.ready)
    ensures var s' := PumpPublishState(s); RequestsOk(s'.tasks, s'.taskRuns, s'.sent, s'.pump.ready)
  {
    hide RequestOk;
  }

  // ----- the listener -----

  lemma KeepReceive(cfg: Config, s: State, rt: ReadyTask, m: WorkerStatus)
    requires Inv(cfg, s) && s.listener.Idle? && rt in s.sent && Answers(m, rt)
    ensures Inv(cfg, s.(listener := Listener.GetRun(m)))
  {
    hide Shape, TasksOk, DagRunsOk, RunsOk, PlansOk, MembersOk, NumbersOk, OrderOk, QueueOk, AttemptOk, CacheOk,
         CacheCovers, RequestsOk;
  }

  /** An attempt that is not terminal is Running. */
  lemma OpenAttemptRuns(cfg: Config, s: State, q: TaskRunId)
    requires q in s.taskRuns && !s.taskRuns[q].status.IsTerminal()
    requires RunsOk(s.tasks, s.taskRuns) && ShapesOk(cfg, s.tasks, s.taskRuns, s.pump.pc, s.listener)
    ensures s.taskRuns[q].status.Running?
  {
    var k := s.taskRuns[q].taskId;
    assert q in RunsOf(s.taskRuns, k);
    assert Shape(cfg, s.taskRuns, k, SettledStatus(cfg, s.tasks, s.taskRuns, s.pump.pc, s.listener, k));
  }

  lemma KeepListenGetRun(cfg: Config, s: State)
    requires Inv(cfg, s) && s.listener.GetRun?
    ensures Inv(cfg, ListenGetRunState(s))
  {
    hide Shape, TasksOk, DagRunsOk, PlansOk, MembersOk, NumbersOk, OrderOk, QueueOk, AttemptOk, CacheOk,
         CacheCovers, RequestsOk, RunsOk;
    var m := s.listener.m;
    if m.taskRunId in s.taskRuns && !s.taskRuns[m.taskRunId].status.IsTerminal() {
      OpenAttemptRuns(cfg, s, m.taskRunId);
    }
  }

  /** The message being handled concerns a published attempt of its task. */
  lemma HandledAttempt(s: State)
    requires !s.listener.Idle? && MessageOk(s.sent, s.listener)
    requires RequestsOk(s.tasks, s.taskRuns, s.sent, s.pump.ready) && AttemptOk(s.taskRuns, s.sent, s.pump.pc, s.pump.queue)
    ensures var m := s.listener.m;
            && m.taskRunId in s.taskRuns && s.taskRuns[m.taskRunId].taskId == m.taskId
            && m.taskId in s.tasks && s.tasks[m.taskId].dagRunId == m.dagRunId
            && (m.Success? && ChunkSets(m.output).Some? ==> s.tasks[m.taskId].kind == Chunker)
            && (s.pump.pc.SaveTask? || HeadSaved(s.pump.pc) ==> s.pump.pc.run.id != m.taskRunId)
  {
    var rt :| rt in s.sent && Answers(s.listener.m, rt);
    assert RequestOk(s.tasks, s.taskRuns, rt);
  }

  /** A published Running attempt belongs to a task stored as Running. */
  lemma PublishedRunning(cfg: Config, s: State)
    requires s.listener.SaveRun? && MessageOk(s.sent, s.listener) && RunsOk(s.tasks, s.taskRuns)
    requires RequestsOk(s.tasks, s.taskRuns, s.sent, s.pump.ready) && AttemptOk(s.taskRuns, s.sent, s.pump.pc, s.pump.queue)
    requires ListenerOk(cfg, s.tasks, s.taskRuns, s.listener)
    requires ShapesOk(cfg, s.tasks, s.taskRuns, s.pump.pc, s.listener)
    ensures var k := s.listener.m.taskId;
            && k in s.tasks && s.tasks[k].status.Running?
            && Shape(cfg, s.taskRuns, k, TaskStatus.Running)
            && !(s.pump.pc.SaveTask? && s.pump.pc.run.taskId == k)
  {
    hide Shape;
    HandledAttempt(s);
    var k, q := s.listener.m.taskId, s.listener.m.taskRunId;
    assert s.pump.pc.SaveTask? && s.pump.pc.run.taskId == k ==> s.pump.pc.run.id in RunsOf(s.taskRuns, k);
    RunningAttempt(cfg, s.taskRuns, q, SettledStatus(cfg, s.tasks, s.taskRuns, s.pump.pc, s.listener, k));
  }

  lemma KeepListenSaveRun(cfg: Config, s: State)
    requires Inv(cfg, s) && s.listener.SaveRun?
    ensures Inv(cfg, ListenSaveRunState(s))
  {
    hide Shape, ShapesOk, TasksOk, DagRunsOk, PlansOk, MembersOk, NumbersOk, CacheOk, CacheCovers, OrderOk, QueueOk,
         MessageOk, AttemptOk;
    var s' := ListenSaveRunState(s);
    var q := s.listener.m.taskRunId;
    HandledAttempt(s);
    PublishedRunning(cfg, s);
    assert s.listener.run == ClosedRun(s.listener.m, s.taskRuns[q]);
    ClosingKeepsNumbers(cfg, s.tasks, s.taskRuns, s.listener.m, q);
    KeepShapesOnClose(cfg, s);
    assert OrderOk(s'.tasks, s'.taskRuns, s'.pump) by { KeepOrderOnClose(s, q); }
    assert AttemptOk(s'.taskRuns, s'.sent, s'.pump.pc, s'.pump.queue) by { KeepAttemptOnClose(s, q); }
    assert MessageOk(s'.sent, s'.listener) by { KeepMessage(s, s'.listener); }
    assert RunsOk(s'.tasks, s'.taskRuns);
    assert ListenerOk(cfg, s'.tasks, s'.taskRuns, s'.listener);
    assert RequestsOk(s'.tasks, s'.taskRuns, s'.sent, s'.pump.ready);
  }

  lemma KeepMessage(s: State, l: Listener)
    requires MessageOk(s.sent, s.listener) && !s.listener.Idle? && !l.Idle? && l.m == s.listener.m
    ensures MessageOk(s.sent, l)
  {
  }

  lemma KeepOrderOnClose(s: State, q: TaskRunId)
    requires q in s.taskRuns && s.listener.SaveRun? && s.listener.run == ClosedRun(s.listener.m, s.taskRuns[q])
    requires s.taskRuns[q].id == q && OrderOk(s.tasks, s.taskRuns, s.pump)
    ensures OrderOk(s.tasks, s.taskRuns[q := s.listener.run], s.pump)
  {
    forall k | k in s.tasks && Started(s.taskRuns[q := s.listener.run], s.pump, k) ensures LowerDone(s.tasks, s.tasks[k]) {
      RunsAfterSave(s.taskRuns, s.listener.run, k);
      assert Started(s.taskRuns, s.pump, k);
    }
  }

  lemma KeepAttemptOnClose(s: State, q: TaskRunId)
    requires q in s.taskRuns && s.listener.SaveRun? && s.listener.run == ClosedRun(s.listener.m, s.taskRuns[q])
    requires s.taskRuns[q].id == q && AttemptOk(s.taskRuns, s.sent, s.pump.pc, s.pump.queue)
    requires s.pump.pc.SaveTask? || HeadSaved(s.pump.pc) ==> s.pump.pc.run.id != q
    ensures AttemptOk(s.taskRuns[q := s.listener.run], s.sent, s.pump.pc, s.pump.queue)
  {
    if s.pump.pc.SaveRun? {
      RunsAfterSave(s.taskRuns, s.listener.run, s.pump.queue[0].id);
      assert RunsOf(s.taskRuns[q := s.listener.run], s.pump.queue[0].id) == RunsOf(s.taskRuns, s.pump.queue[0].id);
    }
  }

  lemma KeepShapesOnClose(cfg: Config, s: State)
    requires s.listener.SaveRun? && ShapesOk(cfg, s.tasks, s.taskRuns, s.pump.pc, s.listener)
    requires var q, m := s.listener.m.taskRunId, s.listener.m;
             && q in s.taskRuns && s.taskRuns[q].id == q && s.taskRuns[q].status.Running?
             && s.taskRuns[q].taskId == m.taskId && s.listener.run == ClosedRun(m, s.taskRuns[q])
             && Shape(cfg, s.taskRuns, m.taskId, TaskStatus.Running)
             && !(s.pump.pc.SaveTask? && s.pump.pc.run.taskId == m.taskId)
    ensures var s' := ListenSaveRunState(s); ShapesOk(cfg, s'.tasks, s'.taskRuns, s'.pump.pc, s'.listener)
  {
    hide Shape;
    var s', q := ListenSaveRunState(s), s.listener.m.taskRunId;
    ClosedShape(cfg, s.taskRuns, s.listener.m, q);
    forall k | k in s'.tasks
      ensures Shape(cfg, s'.taskRuns, k, SettledStatus(cfg, s'.tasks, s'.taskRuns, s'.pump.pc, s'.listener, k))
    {
      if k != s.listener.m.taskId {
        SaveKeepsOthers(cfg, s.taskRuns, s.listener.run, k, SettledStatus(cfg, s.tasks, s.taskRuns, s.pump.pc, s.listener, k));
      }
    }
  }

  lemma KeepListenGetTask(cfg: Config, s: State)
    requires Inv(cfg, s) && s.listener.GetTask?
    ensures Inv(cfg, ListenGetTaskState(cfg, s))
  {
    hide Shape, TasksOk, DagRunsOk, RunsOk, PlansOk, MembersOk, NumbersOk, OrderOk, QueueOk, AttemptOk, CacheOk,
         CacheCovers, RequestsOk;
  }

  lemma KeepListenCount(cfg: Config, s: State)
    requires Inv(cfg, s) && s.listener.Count?
    ensures Inv(cfg, ListenCountState(cfg, s))
  {
    hide Shape, TasksOk, DagRunsOk, RunsOk, PlansOk, MembersOk, NumbersOk, OrderOk, QueueOk, AttemptOk, CacheOk,
         CacheCovers, RequestsOk;
  }

  lemma KeepListenSaveTask(cfg: Config, s: State, ids: seq<TaskId>)
    requires Inv(cfg, s) && s.listener.SaveTask? && FanOutIds(cfg, s, s.listener.m, ids)
    ensures Inv(cfg, ListenSaveTaskState(cfg, s, ids))
  {
    hide TasksOk, DagRunsOk, RunsOk, PlansOk, MembersOk, Shape, ShapesOk, NumbersOk, OrderOk, QueueOk, AttemptOk, CacheOk,
         CacheCovers, RequestsOk, MessageOk, ListenerOk, DagReadOk, FanOutOk, AfterSaveTask, FanOutIds, Rewrites, FannedOutOrigins;
    var s' := ListenSaveTaskState(cfg, s, ids);
    var k, t := s.listener.m.taskId, s.listener.task;
    SavedRow(cfg, s);
    OldOriginsStay(cfg, s, ids);
    RewriteKeepsIdentities(cfg, s, k, t, s'.origins);
    RewriteKeepsPlans(s, k, t, s'.origins);
    RewriteKeepsRequests(s, k, t);
    RewriteKeepsProgress(s, k, t);
    KeepQueueOnResult(cfg, s);
    KeepMessage(s, s'.listener);
    WindowListener(cfg, s');
    KeepShapesOnResult(cfg, s, s'.listener);
    EnterFanOut(cfg, s, ids);
  }

  lemma SavedRow(cfg: Config, s: State)
    requires s.listener.SaveTask? && ListenerOk(cfg, s.tasks, s.taskRuns, s.listener)
    requires TasksOk(s.tasks, s.plans, s.origins)
    ensures Rewrites(s.tasks, s.listener.m.taskId, s.listener.task) && s.tasks[s.listener.m.taskId].status.Running?
    ensures s.listener.task.id == s.listener.m.taskId
    ensures s.listener.m.Success? ==> s.listener.task.status.Success?
  {
  }

  lemma OldOriginsStay(cfg: Config, s: State, ids: seq<TaskId>)
    requires s.listener.SaveTask? && FanOutIds(cfg, s, s.listener.m, ids)
    ensures var s' := ListenSaveTaskState(cfg, s, ids);
            forall x :: x in s.origins ==> x in s'.origins && s'.origins[x] == s.origins[x]
  {
    hide ParsedUuids, EmbedTasks, ChunkSets;
  }

  lemma WindowListener(cfg: Config, s: State)
    requires s.listener.FanOut? || s.listener.GetDag?
    ensures ListenerOk(cfg, s.tasks, s.taskRuns, s.listener) && DagReadOk(s.dagRuns, s.listener)
  {
  }

  lemma KeepQueueOnResult(cfg: Config, s: State)
    requires s.listener.SaveTask? && ListenerOk(cfg, s.tasks, s.taskRuns, s.listener) && TasksOk(s.tasks, s.plans, s.origins)
    requires QueueOk(s.tasks, s.pump.pc, s.pump.queue)
    ensures QueueOk(s.tasks[s.listener.m.taskId := s.listener.task], s.pump.pc, s.pump.queue)
  {
  }

  lemma KeepShapesOnResult(cfg: Config, s: State, l: Listener)
    requires s.listener.SaveTask? && !Closing(l)
    requires ListenerOk(cfg, s.tasks, s.taskRuns, s.listener) && QueueOk(s.tasks, s.pump.pc, s.pump.queue)
    requires AttemptOk(s.taskRuns, s.sent, s.pump.pc, s.pump.queue)
    requires ShapesOk(cfg, s.tasks, s.taskRuns, s.pump.pc, s.listener)
    ensures ShapesOk(cfg, s.tasks[s.listener.m.taskId := s.listener.task], s.taskRuns, s.pump.pc, l)
  {
    hide Shape;
  }

  /** When a chunker's result is stored, its run's planned embedder cannot be done yet. */
  lemma EnterFanOut(cfg: Config, s: State, ids: seq<TaskId>)
    requires Inv(cfg, s) && s.listener.SaveTask? && FanOutIds(cfg, s, s.listener.m, ids)
    ensures var s' := ListenSaveTaskState(cfg, s, ids); FanOutOk(s'.tasks, s'.plans, s'.origins, s'.listener)
  {
    hide FannedOutOrigins, EmbedTasks, ParsedUuids;
    hide TasksOk, DagRunsOk, RunsOk, PlansOk, MembersOk, Shape, ShapesOk, NumbersOk, OrderOk, QueueOk, AttemptOk, CacheOk,
         CacheCovers, RequestsOk, MessageOk, ListenerOk, DagReadOk, FanOutOk, ChunkSets, Rewrites;
    var s' := ListenSaveTaskState(cfg, s, ids);
    var m := s.listener.m;
    if s'.listener.FanOut? {
      HandledAttempt(s);
      SavedRow(cfg, s);
      OnlyChunker(s, m.taskId);
      if PlannedDone(s.plans, s.tasks, m.dagRunId, 3) {
        EmbedderAfterChunker(cfg, s, m.dagRunId);
      }
      PlanLength(s, m.dagRunId);
      FanOutRows(cfg, s, ids);
    } else {
      NoFanOut(s');
    }
  }

  lemma PlanLength(s: State, r: DagRunId)
    requires PlansOk(s.tasks, s.plans, s.origins) && r in s.plans
    ensures |s.plans[r].tasks| == 5
  {
  }

  lemma NoFanOut(s: State)
    requires !s.listener.FanOut?
    ensures FanOutOk(s.tasks, s.plans, s.origins, s.listener)
  {
  }

  /** A chunker is the planned one. */
  lemma OnlyChunker(s: State, k: TaskId)
    requires k in s.tasks && s.tasks[k].kind == Chunker && TasksOk(s.tasks, s.plans, s.origins)
    requires MembersOk(s.tasks, s.plans)
    ensures var r := s.tasks[k].dagRunId; r in s.plans && 2 < |s.plans[r].tasks| && s.plans[r].tasks[2].id == k
  {
    assert IsPlanned(s.plans, s.tasks[k]);
  }

  lemma FanOutRows(cfg: Config, s: State, ids: seq<TaskId>)
    requires s.listener.SaveTask? && FanOutIds(cfg, s, s.listener.m, ids)
    requires ListenSaveTaskState(cfg, s, ids).listener.FanOut?
    requires TasksOk(s.tasks, s.plans, s.origins) && PlansOk(s.tasks, s.plans, s.origins)
    requires Rewrites(s.tasks, s.listener.m.taskId, s.listener.task) && s.listener.task.status.Success?
    requires var r, k := s.listener.m.dagRunId, s.listener.m.taskId;
             r in s.plans && |s.plans[r].tasks| == 5 && s.plans[r].tasks[2].id == k
    requires !PlannedDone(s.plans, s.tasks, s.listener.m.dagRunId, 3)
    ensures var s' := ListenSaveTaskState(cfg, s, ids); FanOutOk(s'.tasks, s'.plans, s'.origins, s'.listener)
  {
    hide ParsedUuids, ChunkSets, FanOutOk, PlannedDone, FannedOutOrigins, ListenerOk, TasksOk, PlansOk;
    PlannedAfterResult(s, s.listener.m.dagRunId);
    NewRows(cfg, s, ids);
    FanOutFrom(ListenSaveTaskState(cfg, s, ids));
  }

  lemma FanOutFrom(s: State)
    requires s.listener.FanOut? && NewRowsOk(s)
    requires PlannedDone(s.plans, s.tasks, s.listener.m.dagRunId, 2) && !PlannedDone(s.plans, s.tasks, s.listener.m.dagRunId, 3)
    ensures FanOutOk(s.tasks, s.plans, s.origins, s.listener)
  {
  }

  /** Storing the chunker's result completes the planned chunker only. */
  lemma PlannedAfterResult(s: State, r: DagRunId)
    requires s.listener.SaveTask? && s.listener.task.id == s.listener.m.taskId && s.listener.task.status.Success?
    requires PlansOk(s.tasks, s.plans, s.origins)
    requires r in s.plans && |s.plans[r].tasks| == 5 && s.plans[r].tasks[2].id == s.listener.m.taskId
    requires !PlannedDone(s.plans, s.tasks, r, 3)
    ensures var tasks' := s.tasks[s.listener.task.id := s.listener.task];
            PlannedDone(s.plans, tasks', r, 2) && !PlannedDone(s.plans, tasks', r, 3)
  {
    assert PlanOk(s.tasks, s.origins, r, s.plans[r]);
    assert s.origins[s.plans[r].tasks[2].id] == Origin.Planned(r, 2);
    assert s.origins[s.plans[r].tasks[3].id] == Origin.Planned(r, 3);
  }

  ghost predicate NewRowsOk(s: State)
    requires s.listener.FanOut?
  {
    var r, rest := s.listener.m.dagRunId, s.listener.rest;
    && (forall i :: 0 <= i < |rest| ==>
          && rest[i].id !in s.tasks && rest[i].id in s.origins && s.origins[rest[i].id] == Origin.FannedOut(r)
          && rest[i].kind == Embedder && rest[i].dagRunId == r && rest[i].status.Pending?)
    && (forall i, j :: 0 <= i < j < |rest| ==> rest[i].id != rest[j].id)
  }

  lemma NewRows(cfg: Config, s: State, ids: seq<TaskId>)
    requires s.listener.SaveTask? && FanOutIds(cfg, s, s.listener.m, ids)
    requires ListenSaveTaskState(cfg, s, ids).listener.FanOut? && TasksOk(s.tasks, s.plans, s.origins)
    requires Rewrites(s.tasks, s.listener.m.taskId, s.listener.task)
    ensures NewRowsOk(ListenSaveTaskState(cfg, s, ids))
  {
    hide ParsedUuids, ChunkSets;
    var s', r := ListenSaveTaskState(cfg, s, ids), s.listener.m.dagRunId;
    var rest := s'.listener.rest;
    forall i | 0 <= i < |rest|
      ensures rest[i].id == ids[i] && rest[i].id in s'.origins && s'.origins[rest[i].id] == Origin.FannedOut(r)
      ensures rest[i].id !in s'.tasks
    {
      assert ids[i] in ids;
    }
  }

  lemma KeepListenFanOut(cfg: Config, s: State)
    requires Inv(cfg, s) && s.listener.FanOut?
    ensures Inv(cfg, ListenFanOutState(s))
  {
    hide Shape, ShapesOk, NumbersOk, RequestsOk, RunsOk, DagRunsOk, MembersOk, OrderOk, CacheOk, CacheCovers,
         TasksOk, PlansOk, MessageOk;
    var s' := ListenFanOutState(s);
    assert MessageOk(s'.sent, s'.listener) by { KeepMessage(s, s'.listener); }
    if s.listener.rest == [] {
      assert ShapesOk(cfg, s'.tasks, s'.taskRuns, s'.pump.pc, s'.listener) by { KeepShapesOnWindow(cfg, s, s'.listener); }
    } else {
      var t, r := s.listener.rest[0], s.listener.m.dagRunId;
      InsertKeepsIdentities(cfg, s, t, s.plans);
      InsertKeepsRequests(s, t);
      InsertKeepsShapes(cfg, s, t, s'.listener);
      NoIndexerStarted(cfg, s);
      InsertKeepsProgress(s, t, s.plans);
      assert PlansOk(s'.tasks, s'.plans, s'.origins) by { KeepPlansOnInsert(s, t); }
      assert QueueOk(s'.tasks, s'.pump.pc, s'.pump.queue);
      FanOutGoesOn(s);
    }
  }

  lemma KeepShapesOnWindow(cfg: Config, s: State, l: Listener)
    requires !Closing(s.listener) && !Closing(l) && ShapesOk(cfg, s.tasks, s.taskRuns, s.pump.pc, s.listener)
    ensures ShapesOk(cfg, s.tasks, s.taskRuns, s.pump.pc, l)
  {
    hide Shape;
  }

  lemma KeepPlansOnInsert(s: State, t: Task)
    requires t.id in s.origins && s.origins[t.id].FannedOut? && t.id !in s.tasks && PlansOk(s.tasks, s.plans, s.origins)
    ensures PlansOk(s.tasks[t.id := t], s.plans, s.origins)
  {
    forall r | r in s.plans ensures PlanOk(s.tasks[t.id := t], s.origins, r, s.plans[r]) {
      assert PlanOk(s.tasks, s.origins, r, s.plans[r]);
    }
  }

  lemma FanOutGoesOn(s: State)
    requires s.listener.FanOut? && s.listener.rest != [] && FanOutOk(s.tasks, s.plans, s.origins, s.listener)
    ensures var s' := ListenFanOutState(s); FanOutOk(s'.tasks, s'.plans, s'.origins, s'.listener)
  {
  }

  /** While a fan-out is being saved, no indexer of its run has started, and no listing shows the embedder done. */
  lemma NoIndexerStarted(cfg: Config, s: State)
    requires Inv(cfg, s) && s.listener.FanOut?
    ensures var r := s.listener.m.dagRunId;
            && r in s.plans
            && (forall k :: k in s.tasks && s.tasks[k].dagRunId == r && Started(s.taskRuns, s.pump, k) ==>
                  Ordering(s.tasks[k].kind) <= 3)
            && (r in s.pump.cache ==> !PlannedDone(s.plans, s.pump.cache[r], r, 3))
  {
    hide Shape, ShapesOk, NumbersOk, RequestsOk, RunsOk, DagRunsOk, QueueOk, AttemptOk, CacheCovers, MessageOk, ListenerOk,
         DagReadOk, MembersOk, PlansOk;
    var r := s.listener.m.dagRunId;
    forall k | k in s.tasks && s.tasks[k].dagRunId == r && Started(s.taskRuns, s.pump, k)
      ensures Ordering(s.tasks[k].kind) <= 3
    {
      if Ordering(s.tasks[k].kind) == 4 {
        EarlierPlannedStored(s, k, 3);
        PlanIsOk(s, r);
      }
    }
  }

  lemma PlanIsOk(s: State, r: DagRunId)
    requires r in s.plans && PlansOk(s.tasks, s.plans, s.origins)
    ensures PlanOk(s.tasks, s.origins, r, s.plans[r])
  {
  }

  lemma KeepListenGetDag(cfg: Config, s: State)
    requires Inv(cfg, s) && s.listener.GetDag?
    ensures Inv(cfg, ListenGetDagState(s))
  {
    hide Shape, TasksOk, RunsOk, PlansOk, MembersOk, NumbersOk, OrderOk, QueueOk, AttemptOk, CacheOk, CacheCovers, RequestsOk;
  }

  lemma KeepListenTasks(cfg: Config, s: State)
    requires Inv(cfg, s) && s.listener.ListTasks?
    ensures Inv(cfg, ListenTasksState(s))
  {
    hide Shape, TasksOk, DagRunsOk, RunsOk, PlansOk, MembersOk, NumbersOk, OrderOk, QueueOk, AttemptOk, CacheOk,
         CacheCovers, RequestsOk, DerivedStatus;
  }

  lemma KeepListenSaveDag(cfg: Config, s: State)
    requires Inv(cfg, s) && s.listener.SaveDag?
    ensures Inv(cfg, ListenSaveDagState(s))
  {
    hide Shape, TasksOk, RunsOk, PlansOk, MembersOk, NumbersOk, OrderOk, QueueOk, AttemptOk, CacheOk, CacheCovers, RequestsOk;
  }

  // ----- the induction -----

  lemma StepKeepsInv(cfg: Config, s: State, step: Step)
    requires Inv(cfg, s) && Enabled(cfg, s, step)
    ensures Inv(cfg, Apply(cfg, s, step))
  {
    hide Inv;
    match step
    case PlanStart(run, tenant, input, ids) => KeepPlanStart(cfg, s, run, tenant, input, ids);
    case PlanSave(run) => KeepPlanSave(cfg, s, run);
    case PumpList(queue) => KeepPumpList(cfg, s, queue);
    case PumpCheck => KeepPumpCheck(cfg, s);
    case PumpCount(newId) => KeepPumpCount(cfg, s, newId);
    case PumpSaveRun => KeepPumpSaveRun(cfg, s);
    case PumpSaveTask => KeepPumpSaveTask(cfg, s);
    case PumpGetDag => KeepPumpGetDag(cfg, s);
    case PumpSaveDag => KeepPumpSaveDag(cfg, s);
    case PumpPublish => KeepPumpPublish(cfg, s);
    case Receive(rt, m) => KeepReceive(cfg, s, rt, m);
    case ListenGetRun => KeepListenGetRun(cfg, s);
    case ListenSaveRun => KeepListenSaveRun(cfg, s);
    case ListenGetTask => KeepListenGetTask(cfg, s);
    case ListenCount => KeepListenCount(cfg, s);
    case ListenSaveTask(ids) => KeepListenSaveTask(cfg, s, ids);
    case ListenFanOut => KeepListenFanOut(cfg, s);
    case ListenGetDag => KeepListenGetDag(cfg, s);
    case ListenTasks => KeepListenTasks(cfg, s);
    case ListenSaveDag => KeepListenSaveDag(cfg, s);
  }

  lemma NextKeepsInv(cfg: Config, s: State, s': State)
    requires Inv(cfg, s) && Next(cfg, s, s')
    ensures Inv(cfg, s')
  {
    hide Inv, Enabled, Apply;
    var step :| Enabled(cfg, s, step) && s' == Apply(cfg, s, step);
    StepKeepsInv(cfg, s, step);
  }

  lemma {:induction false} ExecutionKeepsInv(cfg: Config, states: seq<State>, i: nat)
    requires IsExecution(cfg, states) && i < |states|
    ensures Inv(cfg, states[i])
  {
    hide Inv, Next;
    if i == 0 {
      InitInv(cfg);
    } else {
      ExecutionKeepsInv(cfg, states, i - 1);
      NextKeepsInv(cfg, states[i - 1], states[i]);
    }
  }

  lemma ReachableInv(cfg: Config, s: State)
    requires Reachable(cfg, s)
    ensures Inv(cfg, s)
  {
    hide Inv, Next;
    var states :| IsExecution(cfg, states) && states[|states| - 1] == s;
    ExecutionKeepsInv(cfg, states, |states| - 1);
  }
}
