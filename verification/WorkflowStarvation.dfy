/**
  What a batch limit costs. `list_pending` cuts the listing before readiness is tested. Under a limit of n, as soon as n runs are
  planned before any of their chunkers is done, their indexers fill every batch for good, and none of these runs succeeds.
*/
module WorkflowStarvation {
  import opened Wrappers
  import opened WorkflowTypes
  import opened WorkflowMachine
  import opened WorkflowInvariant
  import opened WorkflowSteps
  import opened WorkflowSafety
  import opened WorkflowTermination
  import opened WorkflowProgress
  import opened WorkflowLiveness
  import opened WorkflowFinality
  import opened WorkflowContinuation
  import opened WorkflowCrowding
  import Json

  // ----- a crowd stays for good -----

  /** Ids are time-ordered throughout. */
  ghost predicate IdsInOrder(trace: nat -> State) { forall n: nat :: InOrder(trace(n), trace(n + 1)) }

  /** Every chunker's success of these runs lists chunk sets. */
  ghost predicate FanOutThroughout(cfg: Config, trace: nat -> State, runs: set<DagRunId>) {
    forall n: nat :: ChunkersFanOut(cfg, trace(n), runs)
  }

  /** The runs' plans are saved and none of their chunkers is done. */
  ghost predicate PlannedTogether(s: State, runs: set<DagRunId>) {
    RunsSaved(s.plans, runs) && forall r :: r in runs ==> !PlannedDone(s.plans, s.tasks, r, 2)
  }

  lemma {:induction false} CrowdStays(cfg: Config, trace: nat -> State, runs: set<DagRunId>, n: nat, i: nat, j: nat)
    requires IsInfiniteExecution(cfg, trace) && IdsInOrder(trace) && FanOutThroughout(cfg, trace, runs)
    requires cfg.maxBatch == Some(n) && n <= |runs| && PlannedTogether(trace(i), runs) && i <= j
    ensures Crowd(trace(j), runs)
    decreases j
  {
    hide Inv, Crowd, Enabled, Apply, InOrder, ChunkersFanOut, PlannedTogether;
    if i == j {
      TraceReachable(cfg, trace, i);
      CrowdForms(cfg, trace(i), runs);
    } else {
      CrowdStays(cfg, trace, runs, n, i, j - 1);
      TraceInv(cfg, trace, j - 1);
      assert Next(cfg, trace(j - 1), trace(j - 1 + 1));
      var step :| Enabled(cfg, trace(j - 1), step) && trace(j) == Apply(cfg, trace(j - 1), step);
      assert InOrder(trace(j - 1), trace(j - 1 + 1));
      StepKeepsCrowd(cfg, trace(j - 1), step, runs, n);
    }
  }

  lemma CrowdForms(cfg: Config, s: State, runs: set<DagRunId>)
    requires Reachable(cfg, s) && PlannedTogether(s, runs)
    ensures Crowd(s, runs)
  {
    hide TasksOk, DagRunsOk, RunsOk, PlansOk, Shape, ShapesOk, NumbersOk, OrderOk, CacheOk, Reachable, PlannedDone, MembersOk,
         CacheCovers, RequestsOk, MessageOk, DagReadOk, QueueOk, AttemptOk, ListenerOk, IsPlanned;
    ReachableInv(cfg, s);
    forall r | r in runs ensures IndexerId(s.plans, r) in s.tasks && s.tasks[IndexerId(s.plans, r)].status.Pending? {
      UnstartedIndexer(cfg, s, r);
    }
    forall k | k in s.tasks && s.tasks[k].dagRunId in runs ensures IsPlanned(s.plans, s.tasks[k]) {
      OnlyPlanned(s, k);
    }
    forall t | t in s.pump.queue && t.dagRunId in runs ensures IsPlanned(s.plans, t) {
      QueuedRow(s, t);
      SamePlace(s.plans, s.tasks[t.id], t);
    }
  }

  lemma OnlyPlanned(s: State, k: TaskId)
    requires MembersOk(s.tasks, s.plans) && k in s.tasks && !PlannedDone(s.plans, s.tasks, s.tasks[k].dagRunId, 2)
    ensures IsPlanned(s.plans, s.tasks[k])
  {
  }

  lemma QueuedRow(s: State, t: Task)
    requires QueueOk(s.tasks, s.pump.pc, s.pump.queue) && TasksOk(s.tasks, s.plans, s.origins) && t in s.pump.queue
    ensures t.id in s.tasks && s.tasks[t.id].dagRunId == t.dagRunId && s.tasks[t.id].kind == t.kind && s.tasks[t.id].id == t.id
  {
    var i :| 0 <= i < |s.pump.queue| && s.pump.queue[i] == t;
  }

  /** An indexer whose run's chunker is not done has no attempt. */
  lemma UnstartedIndexer(cfg: Config, s: State, r: DagRunId)
    requires Reachable(cfg, s) && r in s.plans
    requires s.plans[r].saved == |s.plans[r].tasks| == 5 && !PlannedDone(s.plans, s.tasks, r, 2)
    ensures IndexerId(s.plans, r) in s.tasks && s.tasks[IndexerId(s.plans, r)].status.Pending?
  {
    hide TasksOk, DagRunsOk, RunsOk, MembersOk, Shape, ShapesOk, NumbersOk, CacheOk, Reachable, PlannedDone,
         CacheCovers, RequestsOk, MessageOk, DagReadOk, FanOutOk, QueueOk, ListenerOk, LowerDone, AttemptOk, Quiet;
    ReachableInv(cfg, s);
    PlanIsOk(s, r);
    var x := IndexerId(s.plans, r);
    if Started(s.taskRuns, s.pump, x) {
      assert LowerDone(s.tasks, s.tasks[x]);
      ChunkerAndEmbedderDone(s, r);
    }
    if !Quiet(s, x) {
      WriteHasAttempt(cfg, s, x);
    }
    StatusTellsAttempts(cfg, s, x);
  }

  /** A task with a write in flight has an attempt. */
  lemma WriteHasAttempt(cfg: Config, s: State, k: TaskId)
    requires Inv(cfg, s) && !Quiet(s, k)
    ensures RunsOf(s.taskRuns, k) != {}
  {
    hide TasksOk, DagRunsOk, RunsOk, PlansOk, MembersOk, Shape, ShapesOk, NumbersOk, OrderOk, CacheOk,
         CacheCovers, DagReadOk, FanOutOk, QueueOk, ListenerOk;
    if Closing(s.listener) && s.listener.m.taskId == k {
      HandledAttempt(s);
      assert s.listener.m.taskRunId in RunsOf(s.taskRuns, k);
    } else {
      assert s.pump.pc.run.id in RunsOf(s.taskRuns, k);
    }
  }

  /** None of these runs is ever done: its indexer stays Pending without an attempt. */
  lemma CrowdNeverSucceeds(cfg: Config, trace: nat -> State, runs: set<DagRunId>, n: nat, i: nat, j: nat, r: DagRunId)
    requires IsInfiniteExecution(cfg, trace) && IdsInOrder(trace) && FanOutThroughout(cfg, trace, runs)
    requires cfg.maxBatch == Some(n) && n <= |runs| && PlannedTogether(trace(i), runs) && i <= j && r in runs
    ensures !DerivedStatus(trace(j).tasks, r).Success?
    ensures IndexerId(trace(j).plans, r) in trace(j).tasks && RunsOf(trace(j).taskRuns, IndexerId(trace(j).plans, r)) == {}
  {
    hide IsInfiniteExecution, IdsInOrder, FanOutThroughout, PlannedTogether, Inv;
    CrowdStays(cfg, trace, runs, n, i, j);
    TraceInv(cfg, trace, j);
    IndexerNotStarted(cfg, trace(j), runs, r);
    IndexerOpen(cfg, trace(j), runs, r);
  }

  lemma IndexerOpen(cfg: Config, s: State, runs: set<DagRunId>, r: DagRunId)
    requires Inv(cfg, s) && Crowd(s, runs) && r in runs
    ensures !DerivedStatus(s.tasks, r).Success? && IndexerId(s.plans, r) in s.tasks
  {
    hide Inv, FannedBehind, FanOutKnown, HandBehind, QueuePlanned;
    CrowdRows(cfg, s, runs);
    assert s.tasks[IndexerId(s.plans, r)].dagRunId == r;
    NotDone(s.tasks, IndexerId(s.plans, r), r);
  }

  // ----- without failures they are starved -----

  ghost predicate NoneFailed(tasks: Tasks, r: DagRunId) {
    forall k :: k in tasks && tasks[k].dagRunId == r ==> !tasks[k].status.Failed?
  }

  /** No task of the run has failed at time i, and no failure of the run is handled from then on. */
  ghost predicate NoFailures(trace: nat -> State, r: DagRunId, i: nat) {
    && NoneFailed(trace(i).tasks, r)
    && forall n :: i <= n && !trace(n).listener.Idle? && trace(n).listener.m.dagRunId == r ==> trace(n).listener.m.Success?
  }

  lemma {:induction false} NoneEverFailed(cfg: Config, trace: nat -> State, r: DagRunId, i: nat, n: nat)
    requires IsInfiniteExecution(cfg, trace) && NoFailures(trace, r, i) && i <= n
    ensures NoneFailed(trace(n).tasks, r)
    decreases n
  {
    hide Enabled, Apply, Inv, NoneFailed;
    if i < n {
      NoneEverFailed(cfg, trace, r, i, n - 1);
      TraceInv(cfg, trace, n - 1);
      assert Next(cfg, trace(n - 1), trace(n - 1 + 1));
      var step :| Enabled(cfg, trace(n - 1), step) && trace(n) == Apply(cfg, trace(n - 1), step);
      StepFailsNone(cfg, trace(n - 1), step, r);
    }
  }

  lemma StepFailsNone(cfg: Config, s: State, step: Step, r: DagRunId)
    requires Inv(cfg, s) && Enabled(cfg, s, step) && NoneFailed(s.tasks, r)
    requires !s.listener.Idle? && s.listener.m.dagRunId == r ==> s.listener.m.Success?
    ensures NoneFailed(Apply(cfg, s, step).tasks, r)
  {
    hide TasksOk, DagRunsOk, RunsOk, PlansOk, MembersOk, Shape, ShapesOk, NumbersOk, OrderOk, CacheOk, QueueOk,
         CacheCovers, DagReadOk, FanOutOk, AttemptOk, ListenerOk, RequestsOk, MessageOk, Apply, Enabled;
    Footprint(cfg, s, step);
    match step
    case PlanSave(run) => PlanFailsNone(cfg, s, run, r);
    case PumpSaveTask => PumpFailsNone(cfg, s, r);
    case ListenSaveTask(ids) => ResultFailsNone(cfg, s, step, r);
    case ListenFanOut => FanOutFailsNone(cfg, s, r);
    case _ =>
  }

  lemma PlanFailsNone(cfg: Config, s: State, run: DagRunId, r: DagRunId)
    requires PlansOk(s.tasks, s.plans, s.origins) && Enabled(cfg, s, PlanSave(run)) && NoneFailed(s.tasks, r)
    ensures NoneFailed(Apply(cfg, s, PlanSave(run)).tasks, r)
  {
    hide PlansOk;
    NextPlanned(s, run);
  }

  lemma PumpFailsNone(cfg: Config, s: State, r: DagRunId)
    requires Enabled(cfg, s, PumpSaveTask) && NoneFailed(s.tasks, r)
    ensures NoneFailed(Apply(cfg, s, PumpSaveTask).tasks, r)
  {
  }

  lemma FanOutFailsNone(cfg: Config, s: State, r: DagRunId)
    requires Enabled(cfg, s, ListenFanOut) && FanOutOk(s.tasks, s.plans, s.origins, s.listener) && NoneFailed(s.tasks, r)
    ensures NoneFailed(Apply(cfg, s, ListenFanOut).tasks, r)
  {
  }

  lemma ResultFailsNone(cfg: Config, s: State, step: Step, r: DagRunId)
    requires Inv(cfg, s) && Enabled(cfg, s, step) && step.ListenSaveTask? && NoneFailed(s.tasks, r)
    requires s.listener.Idle? || s.listener.m.dagRunId != r || s.listener.m.Success?
    ensures NoneFailed(Apply(cfg, s, step).tasks, r)
  {
    hide TasksOk, DagRunsOk, RunsOk, PlansOk, MembersOk, Shape, ShapesOk, NumbersOk, OrderOk, CacheOk, QueueOk,
         CacheCovers, DagReadOk, FanOutOk, AttemptOk, ListenerOk, RequestsOk, MessageOk;
    ResultIs(cfg, s, step);
    HandledAttempt(s);
    SavedRow(cfg, s);
  }

  /** Under a limit of n, n runs planned together and without failures are starved in every fair execution. */
  lemma CrowdStarves(cfg: Config, trace: nat -> State, runs: set<DagRunId>, n: nat, i: nat, r: DagRunId)
    requires IsInfiniteExecution(cfg, trace) && Fair(trace) && IdsInOrder(trace) && FanOutThroughout(cfg, trace, runs)
    requires cfg.maxBatch == Some(n) && n <= |runs| && PlannedTogether(trace(i), runs) && r in runs && NoFailures(trace, r, i)
    ensures Starved(trace, r)
  {
    hide IsInfiniteExecution, Fair, IdsInOrder, FanOutThroughout, PlannedTogether, Starved, DerivedStatus, NoFailures, NoneFailed;
    RunIsSaved(trace(i), runs, r);
    PlannedRunsEnd(cfg, trace, r, i);
    if m :| i <= m && EndedFrom(trace, r, m) {
      assert trace(m).dagRuns[r].status == DerivedStatus(trace(m).tasks, r);
      CrowdNeverSucceeds(cfg, trace, runs, n, i, m, r);
      NoneEverFailed(cfg, trace, r, i, m);
      NotFailed(trace(m).tasks, r);
    }
  }

  lemma RunIsSaved(s: State, runs: set<DagRunId>, r: DagRunId)
    requires PlannedTogether(s, runs) && r in runs
    ensures r in s.plans && s.plans[r].saved == |s.plans[r].tasks|
  {
  }

  lemma NotFailed(tasks: Tasks, r: DagRunId)
    requires NoneFailed(tasks, r)
    ensures !DerivedStatus(tasks, r).Failed?
  {
  }

  // ----- planning so many runs -----

  /** Nothing happened but planning, and no plan is under way. */
  ghost predicate OnlyPlans(s: State) {
    && s.listener.Idle? && s.pump.pc.Idle?
    && (forall k :: k in s.tasks ==> s.tasks[k].status.Pending?)
  }

  /** An execution of planners only, under time-ordered ids. */
  ghost predicate Planning(cfg: Config, states: seq<State>) {
    && IsExecution(cfg, states)
    && (forall i :: 0 <= i < |states| ==> OnlyPlans(states[i]))
    && (forall i :: 0 <= i < |states| - 1 ==> InOrder(states[i], states[i + 1]))
  }

  ghost predicate PlanningTo(cfg: Config, s: State) {
    exists states :: Planning(cfg, states) && states[|states| - 1] == s
  }

  lemma ExtendPlanning(cfg: Config, s: State, step: Step)
    requires PlanningTo(cfg, s) && Enabled(cfg, s, step) && InOrder(s, Apply(cfg, s, step)) && OnlyPlans(Apply(cfg, s, step))
    ensures PlanningTo(cfg, Apply(cfg, s, step))
  {
    hide Enabled, Apply, InOrder, OnlyPlans;
    var states :| Planning(cfg, states) && states[|states| - 1] == s;
    var longer := states + [Apply(cfg, s, step)];
    assert Next(cfg, s, Apply(cfg, s, step));
    assert IsExecution(cfg, longer);
    assert Planning(cfg, longer);
  }

  lemma PlanningReaches(cfg: Config, s: State)
    requires PlanningTo(cfg, s)
    ensures Reachable(cfg, s) && OnlyPlans(s)
  {
    hide Next, OnlyPlans, InOrder;
    var states :| Planning(cfg, states) && states[|states| - 1] == s;
  }

  /** The runs below m are planned, and no others. */
  ghost predicate HasPlans(s: State, m: nat) {
    forall r: nat :: r in s.plans <==> r < m
  }

  ghost predicate AllSaved(plans: Plans, m: nat) {
    forall r: nat :: r < m && r in plans ==> plans[r].saved == |plans[r].tasks|
  }

  /** Run r saves the rest of its plan. */
  lemma {:induction false} SaveRest(cfg: Config, s: State, r: DagRunId) returns (s': State)
    requires PlanningTo(cfg, s) && HasPlans(s, r + 1) && AllSaved(s.plans, r) && s.plans[r].saved <= |s.plans[r].tasks|
    ensures PlanningTo(cfg, s') && HasPlans(s', r + 1) && AllSaved(s'.plans, r + 1)
    decreases |s.plans[r].tasks| - s.plans[r].saved
  {
    hide PlanningTo, Enabled, Apply, Reachable, InOrder, OnlyPlans, Inv;
    s' := s;
    if s.plans[r].saved < |s.plans[r].tasks| {
      PlanningReaches(cfg, s);
      ReachableInv(cfg, s);
      SaveOne(cfg, s, r);
      ExtendPlanning(cfg, s, PlanSave(r));
      s' := SaveRest(cfg, Apply(cfg, s, PlanSave(r)), r);
    }
  }

  lemma SaveOne(cfg: Config, s: State, r: DagRunId)
    requires Inv(cfg, s) && OnlyPlans(s) && r in s.plans && s.plans[r].saved < |s.plans[r].tasks|
    ensures Enabled(cfg, s, PlanSave(r))
    ensures var s' := Apply(cfg, s, PlanSave(r));
            OnlyPlans(s') && InOrder(s, s') && s'.plans == s.plans[r := s.plans[r].(saved := s.plans[r].saved + 1)]
  {
    hide TasksOk, DagRunsOk, RunsOk, PlansOk, MembersOk, Shape, ShapesOk, NumbersOk, OrderOk, CacheOk, QueueOk,
         CacheCovers, DagReadOk, FanOutOk, AttemptOk, ListenerOk, RequestsOk, MessageOk;
    NextPlanned(s, r);
  }

  /** The next run is planned. */
  lemma PlanNext(cfg: Config, s: State, m: nat) returns (s': State)
    requires PlanningTo(cfg, s) && HasPlans(s, m) && AllSaved(s.plans, m)
    ensures PlanningTo(cfg, s') && HasPlans(s', m + 1) && AllSaved(s'.plans, m + 1)
  {
    hide PlanningTo, Enabled, Apply, Reachable, InOrder, OnlyPlans, Inv;
    PlanningReaches(cfg, s);
    ReachableInv(cfg, s);
    var ids := FreshTaskIds(s, 5);
    PlanBegins(cfg, s, m, ids);
    var step := PlanStart(m, 0, Json.Null, ids);
    ExtendPlanning(cfg, s, step);
    s' := SaveRest(cfg, Apply(cfg, s, step), m);
  }

  lemma PlanBegins(cfg: Config, s: State, r: DagRunId, ids: seq<TaskId>)
    requires Inv(cfg, s) && OnlyPlans(s) && r !in s.plans && |ids| == 5 && FreshIds(s, ids)
    requires forall i, k :: 0 <= i < 5 && k in s.origins ==> k < ids[i]
    requires forall i, j :: 0 <= i < j < 5 ==> ids[i] < ids[j]
    ensures Enabled(cfg, s, PlanStart(r, 0, Json.Null, ids))
    ensures var s' := Apply(cfg, s, PlanStart(r, 0, Json.Null, ids));
            OnlyPlans(s') && InOrder(s, s') && s'.plans == s.plans[r := Plan(PlannedTasks(ids, r, 0, Json.Null), 0)]
  {
    hide TasksOk, RunsOk, PlansOk, MembersOk, Shape, ShapesOk, NumbersOk, OrderOk, CacheOk, QueueOk,
         CacheCovers, DagReadOk, FanOutOk, AttemptOk, ListenerOk, RequestsOk, MessageOk, FreshIds, InOrder, PlannedTasks;
    PlanInOrder(s, r, ids);
  }

  lemma PlanInOrder(s: State, r: DagRunId, ids: seq<TaskId>)
    requires s.listener.Idle? && |ids| == 5
    requires forall i, k :: 0 <= i < 5 && k in s.origins ==> k < ids[i]
    requires forall i, j :: 0 <= i < j < 5 ==> ids[i] < ids[j]
    ensures InOrder(s, PlanStartState(s, r, 0, Json.Null, ids))
  {
  }

  lemma {:induction false} PlannedState(cfg: Config, m: nat) returns (s: State)
    ensures PlanningTo(cfg, s) && HasPlans(s, m) && AllSaved(s.plans, m)
  {
    hide PlanningTo;
    if m == 0 {
      s := INIT;
      NothingPlanned(cfg);
    } else {
      var before := PlannedState(cfg, m - 1);
      s := PlanNext(cfg, before, m - 1);
    }
  }

  lemma NothingPlanned(cfg: Config)
    ensures PlanningTo(cfg, INIT)
  {
    hide Next;
    assert Planning(cfg, [INIT]);
    assert [INIT][|[INIT]| - 1] == INIT;
  }

  // ----- the law -----

  /** An execution that is fair and under time-ordered ids, and in which the plan of run r is saved at time i. */
  ghost predicate FairlyPlanned(cfg: Config, trace: nat -> State, r: DagRunId, i: nat) {
    && IsInfiniteExecution(cfg, trace) && Fair(trace) && IdsInOrder(trace)
    && r in trace(i).plans && trace(i).plans[r].saved == |trace(i).plans[r].tasks|
  }

  /** Every result that arrives is a success, a chunker's one that lists chunk sets. */
  ghost predicate AllHealthy(cfg: Config, trace: nat -> State) { forall n: nat :: Healthy(cfg, trace(n)) }

  lemma HealthyFansOut(cfg: Config, trace: nat -> State, runs: set<DagRunId>, r: DagRunId, i: nat)
    requires IsInfiniteExecution(cfg, trace) && AllHealthy(cfg, trace)
    ensures FanOutThroughout(cfg, trace, runs) && NoFailures(trace, r, i)
  {
    hide FansOut, Next;
    forall n: nat ensures ChunkersFanOut(cfg, trace(n), runs) && (!trace(n).listener.Idle? ==> trace(n).listener.m.Success?) {
      assert Healthy(cfg, trace(n));
    }
    assert NoFailures(trace, r, 0);
    NoneEverFailed(cfg, trace, r, 0, i);
  }

  /** The runs below m. */
  function RunsBelow(m: nat): (runs: set<DagRunId>)
    ensures |runs| == m && forall r: nat :: r in runs <==> r < m
  {
    if m == 0 then {} else RunsBelow(m - 1) + {m - 1}
  }

  lemma PlannedRunsTogether(cfg: Config, s: State, m: nat)
    requires PlanningTo(cfg, s) && HasPlans(s, m) && AllSaved(s.plans, m)
    ensures PlannedTogether(s, RunsBelow(m)) && s.listener.Idle?
  {
    hide PlanningTo, Reachable, RunsBelow, Inv;
    PlanningReaches(cfg, s);
    ReachableInv(cfg, s);
    InvPlans(cfg, s);
    FiveTasks(s);
  }

  lemma FiveTasks(s: State)
    requires PlansOk(s.tasks, s.plans, s.origins)
    ensures forall r :: r in s.plans ==> |s.plans[r].tasks| == 5
  {
    hide PlansOk;
    forall r | r in s.plans ensures |s.plans[r].tasks| == 5 {
      PlanLength(s, r);
    }
  }

  /** An execution of successes only that goes on fairly after m runs were planned. */
  lemma HealthyExecution(cfg: Config, chunkSet: Option<string>, m: nat) returns (trace: nat -> State, i: nat)
    requires IsMade(cfg, chunkSet)
    ensures IsInfiniteExecution(cfg, trace) && Fair(trace) && IdsInOrder(trace) && AllHealthy(cfg, trace)
    ensures PlannedTogether(trace(i), RunsBelow(m)) && forall n: nat :: trace(n).plans.Keys <= RunsBelow(m)
  {
    hide IsInfiniteExecution, Fair, Next, InOrder, RunsBelow, PlannedTogether, Healthy, OnlyPlans, FromWorker, Reachable, IsMade;
    var s := PlannedState(cfg, m);
    PlannedRunsTogether(cfg, s, m);
    var all :| Planning(cfg, all) && all[|all| - 1] == s;
    var states := all[..|all| - 1];
    assert states + [s] == all;
    trace := FairContinuation(cfg, chunkSet, states, s);
    i := |states|;
    forall n: nat ensures InOrder(trace(n), trace(n + 1)) && Healthy(cfg, trace(n)) {
      if n < i {
        assert trace(n) == all[n] && trace(n + 1) == all[n + 1];
        assert OnlyPlans(all[n]);
        IdleIsHealthy(cfg, trace(n));
      } else {
        TraceReachable(cfg, trace, n);
        WorkerIsHealthy(cfg, chunkSet, trace(n));
      }
    }
    forall n: nat ensures trace(n).plans.Keys <= RunsBelow(m) {
      if n < i {
        PlansStay(cfg, trace, n, i);
      }
      assert trace(i).plans == s.plans;
    }
  }

  lemma {:induction false} PlansStay(cfg: Config, trace: nat -> State, i: nat, j: nat)
    requires IsInfiniteExecution(cfg, trace) && i <= j
    ensures trace(i).plans.Keys <= trace(j).plans.Keys
    decreases j - i
  {
    hide Apply, Enabled;
    if i < j {
      PlansStay(cfg, trace, i, j - 1);
      assert Next(cfg, trace(j - 1), trace(j - 1 + 1));
      var step :| Enabled(cfg, trace(j - 1), step) && trace(j) == Apply(cfg, trace(j - 1), step);
      PlansKeepTasks(cfg, trace(j - 1), step);
    }
  }

  lemma IdleIsHealthy(cfg: Config, s: State)
    requires OnlyPlans(s)
    ensures Healthy(cfg, s)
  {
  }

  /** Under any limit some planned run of a fair execution is starved, although ids are time-ordered and every result is a
      success. */
  lemma LimitCanStarve(cfg: Config, chunkSet: Option<string>) returns (trace: nat -> State, r: DagRunId, i: nat)
    requires cfg.maxBatch.Some? && IsMade(cfg, chunkSet)
    ensures FairlyPlanned(cfg, trace, r, i) && AllHealthy(cfg, trace) && Starved(trace, r)
  {
    hide IsInfiniteExecution, Fair, IdsInOrder, PlannedTogether, AllHealthy, FanOutThroughout, NoFailures, Starved, RunsBelow;
    var n := cfg.maxBatch.value;
    var m := if n == 0 then 1 else n;
    var runs := RunsBelow(m);
    trace, i := HealthyExecution(cfg, chunkSet, m);
    r := 0;
    HealthyFansOut(cfg, trace, runs, r, i);
    CrowdStarves(cfg, trace, runs, n, i, r);
    RunIsSaved(trace(i), runs, r);
  }

  ghost predicate Ends(trace: nat -> State, r: DagRunId, i: nat) { exists m :: i <= m && EndedFrom(trace, r, m) }

  ghost predicate EveryRunEnds(cfg: Config) {
    forall trace: nat -> State, r: DagRunId, i: nat :: FairlyPlanned(cfg, trace, r, i) ==> Ends(trace, r, i)
  }

  ghost predicate EveryHealthyRunEnds(cfg: Config) {
    forall trace: nat -> State, r: DagRunId, i: nat :: FairlyPlanned(cfg, trace, r, i) && AllHealthy(cfg, trace) ==> Ends(trace, r, i)
  }

  /** Every planned run of every fair execution ends if and only if there is no batch limit, also if every result is a
      success. */
  lemma EveryRunEndsIffUnlimited(cfg: Config, chunkSet: Option<string>)
    requires IsMade(cfg, chunkSet)
    ensures EveryRunEnds(cfg) <==> cfg.maxBatch.None?
    ensures EveryHealthyRunEnds(cfg) <==> cfg.maxBatch.None?
  {
    hide IsInfiniteExecution, Fair, EndedFrom, Starved, IdsInOrder, AllHealthy;
    if cfg.maxBatch.None? {
      forall trace: nat -> State, r: DagRunId, i: nat | FairlyPlanned(cfg, trace, r, i) ensures Ends(trace, r, i) {
        UnlimitedRunsEnd(cfg, trace, r, i);
      }
    } else {
      var trace, r, i := LimitCanStarve(cfg, chunkSet);
      PlannedRunsEnd(cfg, trace, r, i);
      assert !Ends(trace, r, i);
    }
  }
}
