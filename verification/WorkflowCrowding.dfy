/**
  How a batch limit meets the fan-out. Ids are time-ordered, so the embedder tasks that a chunker's result adds are listed after
  the indexers of all runs planned before it. Under a limit of n, n such indexers fill every batch and wait for embedders that
  are never listed.
*/
module WorkflowCrowding {
  import opened WorkflowTypes
  import opened WorkflowMachine
  import opened WorkflowInvariant
  import opened WorkflowSteps
  import opened WorkflowSafety
  import opened Wrappers

  // ----- a crowd of runs -----

  ghost predicate RunsSaved(plans: Plans, runs: set<DagRunId>) {
    forall r :: r in runs ==> r in plans && plans[r].saved == |plans[r].tasks| == 5
  }

  ghost function IndexerId(plans: Plans, r: DagRunId): TaskId {
    if r in plans && |plans[r].tasks| == 5 then plans[r].tasks[4].id else 0
  }

  ghost predicate IndexersWait(tasks: Tasks, plans: Plans, runs: set<DagRunId>) {
    forall r :: r in runs ==> IndexerId(plans, r) in tasks && tasks[IndexerId(plans, r)].status.Pending?
  }

  /** Listed after the indexers of all the runs. */
  ghost predicate Behind(plans: Plans, runs: set<DagRunId>, k: TaskId) { forall r :: r in runs ==> IndexerId(plans, r) < k }

  ghost predicate IsFanned(tasks: Tasks, plans: Plans, r: DagRunId, k: TaskId) {
    k in tasks && tasks[k].dagRunId == r && !IsPlanned(plans, tasks[k])
  }

  ghost predicate FannedBehind(tasks: Tasks, plans: Plans, runs: set<DagRunId>) {
    forall r, k :: r in runs && IsFanned(tasks, plans, r, k) ==> tasks[k].status.Pending? && Behind(plans, runs, k)
  }

  ghost predicate HasFanned(tasks: Tasks, plans: Plans, r: DagRunId) { exists k :: IsFanned(tasks, plans, r, k) }

  predicate Fanning(l: Listener, r: DagRunId) { l.FanOut? && l.m.dagRunId == r && l.rest != [] }

  /** A chunker that is done has added a task, or is about to. */
  ghost predicate FanOutKnown(tasks: Tasks, plans: Plans, runs: set<DagRunId>, l: Listener) {
    forall r :: r in runs && PlannedDone(plans, tasks, r, 2) ==> HasFanned(tasks, plans, r) || Fanning(l, r)
  }

  ghost predicate HandBehind(plans: Plans, runs: set<DagRunId>, l: Listener) {
    l.FanOut? && l.m.dagRunId in runs ==> forall t :: t in l.rest ==> Behind(plans, runs, t.id)
  }

  ghost predicate QueuePlanned(plans: Plans, runs: set<DagRunId>, queue: seq<Task>) {
    forall t :: t in queue && t.dagRunId in runs ==> IsPlanned(plans, t)
  }

  /** The runs' indexers wait, and everything their chunkers added or are about to add comes behind these indexers. */
  ghost predicate Crowd(s: State, runs: set<DagRunId>) {
    && RunsSaved(s.plans, runs) && IndexersWait(s.tasks, s.plans, runs) && FannedBehind(s.tasks, s.plans, runs)
    && FanOutKnown(s.tasks, s.plans, runs, s.listener) && HandBehind(s.plans, runs, s.listener)
    && QueuePlanned(s.plans, runs, s.pump.queue)
  }

  /** A chunker's success that is being handled lists chunk sets, as every chunker's does. */
  ghost predicate ChunkersFanOut(cfg: Config, s: State, runs: set<DagRunId>) {
    (!s.listener.Idle? && s.listener.m.dagRunId in runs && s.listener.m.Success? && s.listener.m.taskId in s.tasks
     && s.tasks[s.listener.m.taskId].kind == Chunker) ==> FansOut(cfg, s.listener.m)
  }

  // ----- the batch -----

  ghost function PendingBelow(tasks: Tasks, t: TaskId): set<TaskId> {
    set k | k in tasks && tasks[k].status.Pending? && k < t
  }

  function IdsOf(queue: seq<Task>): (ids: set<TaskId>)
    ensures forall k :: k in ids <==> exists t :: t in queue && t.id == k
  {
    set t | t in queue :: t.id
  }

  lemma {:induction false} AscendingIds(queue: seq<Task>)
    requires Ascending(queue)
    ensures |IdsOf(queue)| == |queue|
  {
    if queue == [] {
      assert IdsOf(queue) == {};
    } else {
      var last, front := queue[|queue| - 1], queue[..|queue| - 1];
      AscendingIds(front);
      assert IdsOf(queue) == IdsOf(front) + {last.id};
      assert last.id !in IdsOf(front);
    }
  }

  lemma SubsetSize(a: set<TaskId>, b: set<TaskId>)
    requires a <= b
    ensures |a| <= |b|
  {
    assert b == a + (b - a);
  }

  /** A batch lists exactly the Pending rows with fewer than n Pending rows below them. */
  lemma ListedIff(cfg: Config, s: State, queue: seq<Task>, t: TaskId, n: nat)
    requires cfg.maxBatch == Some(n) && IsPendingList(cfg, s.tasks, queue) && TasksOk(s.tasks, s.plans, s.origins)
    requires t in s.tasks && s.tasks[t].status.Pending?
    ensures s.tasks[t] in queue <==> |PendingBelow(s.tasks, t)| < n
  {
    hide TasksOk;
    StoredTask(s, t);
    if s.tasks[t] in queue {
      var i :| 0 <= i < |queue| && queue[i] == s.tasks[t];
      BelowIsAhead(cfg, s, queue, i);
    } else {
      ListedIsBelow(cfg, s, queue, t);
    }
  }

  lemma BelowIsAhead(cfg: Config, s: State, queue: seq<Task>, i: nat)
    requires cfg.maxBatch.Some? && IsPendingList(cfg, s.tasks, queue) && i < |queue|
    requires TasksOk(s.tasks, s.plans, s.origins)
    ensures |PendingBelow(s.tasks, queue[i].id)| <= i
  {
    hide TasksOk;
    var front := queue[..i];
    forall k | k in PendingBelow(s.tasks, queue[i].id) ensures k in IdsOf(front) {
      StoredTask(s, k);
      var j :| 0 <= j < |queue| && queue[j] == s.tasks[k];
      assert j < i;
      assert front[j] == s.tasks[k];
    }
    AscendingIds(front);
    SubsetSize(PendingBelow(s.tasks, queue[i].id), IdsOf(front));
  }

  lemma ListedIsBelow(cfg: Config, s: State, queue: seq<Task>, t: TaskId)
    requires cfg.maxBatch.Some? && IsPendingList(cfg, s.tasks, queue)
    requires t in s.tasks && s.tasks[t].status.Pending? && s.tasks[t] !in queue
    ensures |PendingBelow(s.tasks, t)| >= cfg.maxBatch.value
  {
    forall k | k in IdsOf(queue) ensures k in PendingBelow(s.tasks, t) {
      var row :| row in queue && row.id == k;
      var i :| 0 <= i < |queue| && queue[i] == row;
    }
    AscendingIds(queue);
    SubsetSize(IdsOf(queue), PendingBelow(s.tasks, t));
  }

  ghost function Indexers(plans: Plans, runs: set<DagRunId>): set<TaskId> {
    set r | r in runs :: IndexerId(plans, r)
  }

  lemma IndexersDiffer(tasks: Tasks, plans: Plans, origins: map<TaskId, Origin>, r: DagRunId, x: DagRunId)
    requires PlansOk(tasks, plans, origins) && r in plans && x in plans && r != x
    ensures IndexerId(plans, r) != IndexerId(plans, x)
  {
    assert PlanOk(tasks, origins, x, plans[x]) && PlanOk(tasks, origins, r, plans[r]);
    assert origins[plans[r].tasks[4].id] == Origin.Planned(r, 4) && origins[plans[x].tasks[4].id] == Origin.Planned(x, 4);
  }

  /** As many indexers as runs. */
  lemma {:induction false} IndexersAreMany(tasks: Tasks, plans: Plans, origins: map<TaskId, Origin>, runs: set<DagRunId>)
    requires PlansOk(tasks, plans, origins) && forall r :: r in runs ==> r in plans
    ensures |Indexers(plans, runs)| == |runs|
    decreases runs
  {
    hide PlansOk, IndexerId;
    if runs == {} {
      assert Indexers(plans, runs) == {};
    } else {
      var r :| r in runs;
      IndexersAreMany(tasks, plans, origins, runs - {r});
      assert Indexers(plans, runs) == Indexers(plans, runs - {r}) + {IndexerId(plans, r)};
      forall x | x in runs - {r} ensures IndexerId(plans, x) != IndexerId(plans, r) {
        IndexersDiffer(tasks, plans, origins, r, x);
      }
    }
  }

  /** With n waiting indexers, a batch of n holds no task that is behind them all. */
  lemma NoneBehindListed(cfg: Config, s: State, runs: set<DagRunId>, queue: seq<Task>, n: nat)
    requires cfg.maxBatch == Some(n) && n <= |runs| && IsPendingList(cfg, s.tasks, queue)
    requires TasksOk(s.tasks, s.plans, s.origins) && PlansOk(s.tasks, s.plans, s.origins)
    requires RunsSaved(s.plans, runs) && IndexersWait(s.tasks, s.plans, runs)
    ensures forall t :: t in queue ==> !Behind(s.plans, runs, t.id)
  {
    hide TasksOk, PlansOk, IndexerId;
    forall t | t in queue ensures !Behind(s.plans, runs, t.id) {
      if Behind(s.plans, runs, t.id) {
        var i :| 0 <= i < |queue| && queue[i] == t;
        IndexersAreMany(s.tasks, s.plans, s.origins, runs);
        SubsetSize(Indexers(s.plans, runs), PendingBelow(s.tasks, t.id));
        ListedIff(cfg, s, queue, t.id, n);
      }
    }
  }

  // ----- no step dissolves a crowd -----

  /** A ready or dispatched task is no indexer of a crowd. */
  lemma IndexerNotStarted(cfg: Config, s: State, runs: set<DagRunId>, r: DagRunId)
    requires Inv(cfg, s) && Crowd(s, runs) && r in runs
    ensures !Started(s.taskRuns, s.pump, IndexerId(s.plans, r))
  {
    hide DagRunsOk, RunsOk, Shape, ShapesOk, NumbersOk, QueueOk, AttemptOk, CacheOk, CacheCovers, RequestsOk, MessageOk,
         ListenerOk, DagReadOk, PlansOk, MembersOk, TasksOk;
    var x := IndexerId(s.plans, r);
    PlanIsOk(s, r);
    if Started(s.taskRuns, s.pump, x) {
      assert LowerDone(s.tasks, s.tasks[x]);
      ChunkerAndEmbedderDone(s, r);
      if HasFanned(s.tasks, s.plans, r) {
        var k :| IsFanned(s.tasks, s.plans, r, k);
        FannedIsEmbedder(s, r, k);
      }
    }
  }

  lemma ChunkerAndEmbedderDone(s: State, r: DagRunId)
    requires r in s.plans && PlanOk(s.tasks, s.origins, r, s.plans[r]) && s.plans[r].saved == 5
    requires LowerDone(s.tasks, s.tasks[s.plans[r].tasks[4].id])
    ensures PlannedDone(s.plans, s.tasks, r, 2) && PlannedDone(s.plans, s.tasks, r, 3)
  {
    assert s.plans[r].tasks[2].id in s.tasks && s.plans[r].tasks[3].id in s.tasks;
  }

  lemma FannedIsEmbedder(s: State, r: DagRunId, k: TaskId)
    requires MembersOk(s.tasks, s.plans) && IsFanned(s.tasks, s.plans, r, k)
    ensures s.tasks[k].kind == Embedder
  {
  }

  /** Steps that write no task and add no plan of the crowd. */
  lemma QuietKeepsCrowd(s: State, s': State, runs: set<DagRunId>)
    requires Crowd(s, runs) && s'.tasks == s.tasks && forall r :: r in s.plans ==> r in s'.plans && s'.plans[r] == s.plans[r]
    requires forall k :: k in s.tasks ==> s.tasks[k].dagRunId in s.plans
    requires forall t :: t in s'.pump.queue ==> t in s.pump.queue
    requires s.listener.FanOut? && s.listener.rest != [] ==> s'.listener == s.listener
    requires s'.listener.FanOut? ==> s'.listener == s.listener
    requires forall t :: t in s.pump.queue ==> t.dagRunId in s.plans
    ensures Crowd(s', runs)
  {
    hide PlannedDone;
    forall r ensures r in s.plans ==> IndexerId(s'.plans, r) == IndexerId(s.plans, r) {
    }
    forall r, k | r in s.plans ensures IsFanned(s'.tasks, s'.plans, r, k) == IsFanned(s.tasks, s.plans, r, k) {
    }
    forall k | Behind(s.plans, runs, k) ensures Behind(s'.plans, runs, k) {
    }
    SameKnown(s, s', runs);
  }

  lemma SameKnown(s: State, s': State, runs: set<DagRunId>)
    requires RunsSaved(s.plans, runs) && FanOutKnown(s.tasks, s.plans, runs, s.listener)
    requires s'.tasks == s.tasks && forall r :: r in runs ==> r in s'.plans && s'.plans[r] == s.plans[r]
    requires forall r, k :: r in runs ==> IsFanned(s'.tasks, s'.plans, r, k) == IsFanned(s.tasks, s.plans, r, k)
    requires s.listener.FanOut? && s.listener.rest != [] ==> s'.listener == s.listener
    ensures FanOutKnown(s'.tasks, s'.plans, runs, s'.listener)
  {
    hide IsFanned;
    forall r | r in runs && PlannedDone(s'.plans, s'.tasks, r, 2)
      ensures HasFanned(s'.tasks, s'.plans, r) || Fanning(s'.listener, r)
    {
      assert PlannedDone(s.plans, s.tasks, r, 2);
      if HasFanned(s.tasks, s.plans, r) {
        var k :| IsFanned(s.tasks, s.plans, r, k);
        assert IsFanned(s'.tasks, s'.plans, r, k);
      }
    }
  }

  /** One row is rewritten, with its identity, or a row is added. */
  ghost predicate Writes(s: State, s': State, t: Task) {
    && s'.tasks == s.tasks[t.id := t] && s'.pump.queue == s.pump.queue
    && (forall r :: r in s.plans ==> r in s'.plans && s'.plans[r].tasks == s.plans[r].tasks)
    && (t.id in s.tasks ==> t.dagRunId == s.tasks[t.id].dagRunId && t.kind == s.tasks[t.id].kind)
  }

  lemma WriteKeepsFanned(s: State, s': State, t: Task, runs: set<DagRunId>, r: DagRunId, k: TaskId)
    requires Writes(s, s', t) && RunsSaved(s.plans, runs) && r in runs
    requires forall x :: x in s.tasks ==> s.tasks[x].id == x
    ensures IsFanned(s'.tasks, s'.plans, r, k)
            <==> IsFanned(s.tasks, s.plans, r, k) || (k == t.id && k !in s.tasks && t.dagRunId == r && !IsPlanned(s.plans, t))
  {
  }

  ghost predicate RowsOfPlan(tasks: Tasks, plans: Plans, r: DagRunId) {
    && r in plans && |plans[r].tasks| == 5
    && forall i :: 0 <= i < 5 ==> plans[r].tasks[i].id in tasks && tasks[plans[r].tasks[i].id].dagRunId == r
  }

  /** A row of another run is written. */
  lemma OtherWriteKeepsCrowd(s: State, s': State, t: Task, runs: set<DagRunId>)
    requires Crowd(s, runs) && Writes(s, s', t) && t.dagRunId !in runs && forall x :: x in s.tasks ==> s.tasks[x].id == x
    requires forall r :: r in runs ==> r in s'.plans && s'.plans[r] == s.plans[r]
    requires forall r :: r in runs ==> RowsOfPlan(s.tasks, s.plans, r)
    requires forall x :: x in s.pump.queue && x.dagRunId in runs ==> x.dagRunId in s.plans
    requires s.listener.FanOut? && s.listener.rest != [] ==> s'.listener == s.listener || s.listener.m.dagRunId !in runs
    requires s'.listener.FanOut? ==> s'.listener == s.listener || s'.listener.m.dagRunId !in runs
    ensures Crowd(s', runs)
  {
    forall r, k | r in runs ensures IsFanned(s'.tasks, s'.plans, r, k) == IsFanned(s.tasks, s.plans, r, k) {
      WriteKeepsFanned(s, s', t, runs, r, k);
    }
    forall r | r in runs ensures IndexerId(s'.plans, r) == IndexerId(s.plans, r) && t.id != IndexerId(s.plans, r) {
    }
    forall r | r in runs && PlannedDone(s'.plans, s'.tasks, r, 2)
      ensures HasFanned(s'.tasks, s'.plans, r) || Fanning(s'.listener, r)
    {
      assert s.plans[r].tasks[2].id != t.id;
      assert PlannedDone(s.plans, s.tasks, r, 2);
      if HasFanned(s.tasks, s.plans, r) {
        var k :| IsFanned(s.tasks, s.plans, r, k);
        assert IsFanned(s'.tasks, s'.plans, r, k);
      }
    }
    forall k | Behind(s.plans, runs, k) ensures Behind(s'.plans, runs, k) {
    }
  }

  /** A planned row of the crowd that is no indexer takes a new status. */
  lemma RewriteKeepsCrowd(s: State, s': State, t: Task, runs: set<DagRunId>)
    requires Crowd(s, runs) && Writes(s, s', t) && s'.plans == s.plans && t.id in s.tasks && forall x :: x in s.tasks ==> s.tasks[x].id == x
    requires forall r :: r in runs ==> t.id != IndexerId(s.plans, r)
    requires t.dagRunId in runs ==> IsPlanned(s.plans, t)
    requires !s.listener.FanOut? || s'.listener == s.listener
    requires HandBehind(s.plans, runs, s'.listener)
    requires forall r :: r in runs && PlannedDone(s.plans, s'.tasks, r, 2) && !PlannedDone(s.plans, s.tasks, r, 2) ==>
               Fanning(s'.listener, r)
    ensures Crowd(s', runs)
  {
    hide PlannedDone;
    forall r, k | r in runs ensures IsFanned(s'.tasks, s'.plans, r, k) == IsFanned(s.tasks, s.plans, r, k) {
      WriteKeepsFanned(s, s', t, runs, r, k);
    }
    forall r, k | r in runs && IsFanned(s'.tasks, s'.plans, r, k) ensures s'.tasks[k].status.Pending? && Behind(s.plans, runs, k) {
      assert IsFanned(s.tasks, s.plans, r, k);
      assert k != t.id;
    }
    forall r | r in runs && PlannedDone(s.plans, s'.tasks, r, 2)
      ensures HasFanned(s'.tasks, s'.plans, r) || Fanning(s'.listener, r)
    {
      if PlannedDone(s.plans, s.tasks, r, 2) && HasFanned(s.tasks, s.plans, r) {
        var k :| IsFanned(s.tasks, s.plans, r, k);
        assert IsFanned(s'.tasks, s'.plans, r, k);
      }
    }
  }

  /** A fanned-out row of the crowd is saved. */
  lemma InsertKeepsCrowd(s: State, s': State, runs: set<DagRunId>)
    requires Crowd(s, runs) && s.listener.FanOut? && s.listener.rest != [] && s.listener.m.dagRunId in runs
    requires FanOutOk(s.tasks, s.plans, s.origins, s.listener) && PlansOk(s.tasks, s.plans, s.origins)
    requires Writes(s, s', s.listener.rest[0]) && s'.plans == s.plans && forall x :: x in s.tasks ==> s.tasks[x].id == x
    requires s'.listener == Listener.FanOut(s.listener.m, s.listener.rest[1..])
    ensures Crowd(s', runs)
  {
    hide PlannedDone, PlanOk, PlansOk;
    var t, r0 := s.listener.rest[0], s.listener.m.dagRunId;
    NewIsFanned(s, r0);
    forall r, k | r in runs
      ensures IsFanned(s'.tasks, s'.plans, r, k) <==> IsFanned(s.tasks, s.plans, r, k) || (k == t.id && r == r0)
    {
      WriteKeepsFanned(s, s', t, runs, r, k);
    }
    assert IsFanned(s'.tasks, s'.plans, r0, t.id);
    forall r | r in runs && PlannedDone(s'.plans, s'.tasks, r, 2)
      ensures HasFanned(s'.tasks, s'.plans, r) || Fanning(s'.listener, r)
    {
      if r != r0 {
        ChunkerAsBefore(s, s', t, runs, r);
        var k :| IsFanned(s.tasks, s.plans, r, k);
        assert IsFanned(s'.tasks, s'.plans, r, k);
      }
    }
  }

  lemma NewIsFanned(s: State, r: DagRunId)
    requires s.listener.FanOut? && s.listener.rest != [] && s.listener.m.dagRunId == r
    requires FanOutOk(s.tasks, s.plans, s.origins, s.listener) && PlansOk(s.tasks, s.plans, s.origins)
    requires r in s.plans && s.plans[r].saved == |s.plans[r].tasks| == 5
    ensures var t := s.listener.rest[0];
            t.id !in s.tasks && t.dagRunId == r && t.status.Pending? && !IsPlanned(s.plans, t)
  {
    assert PlanOk(s.tasks, s.origins, r, s.plans[r]);
  }

  lemma ChunkerAsBefore(s: State, s': State, t: Task, runs: set<DagRunId>, r: DagRunId)
    requires t.id !in s.tasks && s'.tasks == s.tasks[t.id := t] && s'.plans == s.plans && r in runs
    requires RunsSaved(s.plans, runs) && PlansOk(s.tasks, s.plans, s.origins)
    ensures PlannedDone(s'.plans, s'.tasks, r, 2) == PlannedDone(s.plans, s.tasks, r, 2)
  {
    assert PlanOk(s.tasks, s.origins, r, s.plans[r]);
  }

  // ----- step by step -----

  /** What of the invariant the crowd needs: rows under their ids, planned rows of saved plans stored, known runs. */
  lemma CrowdRows(cfg: Config, s: State, runs: set<DagRunId>)
    requires Inv(cfg, s) && RunsSaved(s.plans, runs)
    ensures forall x :: x in s.tasks ==> s.tasks[x].id == x && s.tasks[x].dagRunId in s.plans && x in s.origins
    ensures forall r :: r in runs ==> RowsOfPlan(s.tasks, s.plans, r)
    ensures forall t :: t in s.pump.queue ==> t.dagRunId in s.plans
  {
    hide DagRunsOk, RunsOk, MembersOk, Shape, ShapesOk, NumbersOk, OrderOk, AttemptOk, CacheOk, CacheCovers, RequestsOk,
         MessageOk, ListenerOk, DagReadOk, FanOutOk, PlanOk;
    forall r | r in runs ensures RowsOfPlan(s.tasks, s.plans, r) {
      PlannedRows(s, r);
    }
    forall t | t in s.pump.queue ensures t.dagRunId in s.plans {
      var i :| 0 <= i < |s.pump.queue| && s.pump.queue[i] == t;
      assert s.tasks[t.id].dagRunId == t.dagRunId;
    }
  }

  lemma PlannedRows(s: State, r: DagRunId)
    requires PlansOk(s.tasks, s.plans, s.origins) && r in s.plans && s.plans[r].saved == |s.plans[r].tasks| == 5
    ensures RowsOfPlan(s.tasks, s.plans, r)
  {
    assert PlanOk(s.tasks, s.origins, r, s.plans[r]);
  }

  lemma StepKeepsCrowd(cfg: Config, s: State, step: Step, runs: set<DagRunId>, n: nat)
    requires Inv(cfg, s) && Crowd(s, runs) && Enabled(cfg, s, step) && cfg.maxBatch == Some(n) && n <= |runs|
    requires InOrder(s, Apply(cfg, s, step)) && ChunkersFanOut(cfg, s, runs)
    ensures Crowd(Apply(cfg, s, step), runs)
  {
    hide Inv, Crowd, Enabled, Apply, InOrder, ChunkersFanOut, FanOutIds, PumpSaveTaskState, ListenFanOutState, PlanSaveState;
    match step
    case PlanSave(run) =>
      StepGuards(cfg, s, step);
      SavesNext(cfg, s, run);
      CrowdPlanSave(cfg, s, run, runs);
    case PumpList(queue) => CrowdPumpList(cfg, s, queue, runs, n);
    case PumpSaveTask =>
      StepGuards(cfg, s, step);
      PumpSteps(cfg, s);
      CrowdPumpSaveTask(cfg, s, runs);
    case ListenSaveTask(ids) =>
      StepGuards(cfg, s, step);
      CrowdResult(cfg, s, ids, runs);
    case ListenFanOut =>
      StepGuards(cfg, s, step);
      ListenSteps(cfg, s);
      CrowdFanOut(cfg, s, runs);
    case _ => CrowdQuiet(cfg, s, step, runs);
  }

  lemma StepGuards(cfg: Config, s: State, step: Step)
    requires Enabled(cfg, s, step)
    ensures step.PlanSave? ==> step.run in s.plans && s.plans[step.run].saved < |s.plans[step.run].tasks|
    ensures step.PumpSaveTask? ==> s.pump.pc.SaveTask? && s.pump.queue != []
    ensures step.ListenFanOut? ==> s.listener.FanOut?
    ensures step.ListenSaveTask? ==> s.listener.SaveTask? && FanOutIds(cfg, s, s.listener.m, step.ids)
  {
    hide FanOutIds, FreshIds, IsPendingList, Answers;
  }

  lemma SavesNext(cfg: Config, s: State, run: DagRunId)
    requires run in s.plans && s.plans[run].saved < |s.plans[run].tasks|
    ensures Enabled(cfg, s, PlanSave(run)) && Apply(cfg, s, PlanSave(run)) == PlanSaveState(s, run)
  {
    hide PlanSaveState;
  }

  lemma CrowdQuiet(cfg: Config, s: State, step: Step, runs: set<DagRunId>)
    requires Inv(cfg, s) && Crowd(s, runs) && Enabled(cfg, s, step)
    requires !step.PlanSave? && !step.PumpList? && !step.PumpSaveTask? && !step.ListenSaveTask? && !step.ListenFanOut?
    ensures Crowd(Apply(cfg, s, step), runs)
  {
    hide Inv, Enabled, Apply, IndexersWait, FannedBehind, FanOutKnown, HandBehind, QueuePlanned;
    CrowdRows(cfg, s, runs);
    QuietMoves(cfg, s, step);
    Footprint(cfg, s, step);
    QuietKeepsCrowd(s, Apply(cfg, s, step), runs);
  }

  lemma QuietMoves(cfg: Config, s: State, step: Step)
    requires Enabled(cfg, s, step)
    requires !step.PlanSave? && !step.PumpList? && !step.PumpSaveTask? && !step.ListenSaveTask? && !step.ListenFanOut?
    ensures var s' := Apply(cfg, s, step);
            && (forall t :: t in s'.pump.queue ==> t in s.pump.queue)
            && (s.listener.FanOut? || s'.listener.FanOut? ==> s'.listener == s.listener)
            && (forall r :: r in s.plans ==> r in s'.plans && s'.plans[r] == s.plans[r])
  {
    hide Apply, Enabled;
    Footprint(cfg, s, step);
    if step.PlanStart? {
      PlanAdds(cfg, s, step);
    } else if step.IsPump() {
      PumpShrinks(cfg, s, step);
    } else {
      ListenerOffFanOut(cfg, s, step);
    }
  }

  lemma PlanAdds(cfg: Config, s: State, step: Step)
    requires Enabled(cfg, s, step) && step.PlanStart?
    ensures forall r :: r in s.plans ==> r in Apply(cfg, s, step).plans && Apply(cfg, s, step).plans[r] == s.plans[r]
  {
    hide FreshIds, PlannedTasks, PlannedOrigins;
  }

  lemma PumpShrinks(cfg: Config, s: State, step: Step)
    requires Enabled(cfg, s, step) && step.IsPump() && !step.PumpList? && !step.PumpSaveTask?
    ensures forall t :: t in Apply(cfg, s, step).pump.queue ==> t in s.pump.queue
  {
    hide IsReady, SiblingsUsed;
  }

  lemma ListenerOffFanOut(cfg: Config, s: State, step: Step)
    requires Enabled(cfg, s, step) && !step.IsPump() && !step.PlanStart?
    requires !step.PlanSave? && !step.ListenSaveTask? && !step.ListenFanOut?
    ensures !s.listener.FanOut? && !Apply(cfg, s, step).listener.FanOut?
  {
    hide DerivedStatus, Answers;
  }

  lemma CrowdPumpList(cfg: Config, s: State, queue: seq<Task>, runs: set<DagRunId>, n: nat)
    requires Inv(cfg, s) && Crowd(s, runs) && Enabled(cfg, s, PumpList(queue)) && cfg.maxBatch == Some(n) && n <= |runs|
    ensures Crowd(Apply(cfg, s, PumpList(queue)), runs)
  {
    hide DagRunsOk, RunsOk, MembersOk, Shape, ShapesOk, NumbersOk, OrderOk, AttemptOk, CacheOk, CacheCovers, RequestsOk,
         MessageOk, ListenerOk, DagReadOk, FanOutOk, PlansOk, QueueOk, TasksOk, IndexersWait, FanOutKnown, HandBehind, Behind;
    NoneBehindListed(cfg, s, runs, queue, n);
    forall t | t in queue && t.dagRunId in runs ensures IsPlanned(s.plans, t) {
      var i :| 0 <= i < |queue| && queue[i] == t;
      assert IsPlanned(s.plans, t) || IsFanned(s.tasks, s.plans, t.dagRunId, t.id);
    }
    hide IsPendingList, FannedBehind;
    var s' := PumpListStep(cfg, s, queue);
  }

  lemma CrowdPlanSave(cfg: Config, s: State, run: DagRunId, runs: set<DagRunId>)
    requires Inv(cfg, s) && Crowd(s, runs) && run in s.plans && s.plans[run].saved < |s.plans[run].tasks|
    ensures Crowd(PlanSaveState(s, run), runs)
  {
    hide Inv, IndexersWait, FanOutKnown, HandBehind, FannedBehind, QueuePlanned, PlansOk, RowsOfPlan;
    CrowdRows(cfg, s, runs);
    InvPlans(cfg, s);
    NextPlanned(s, run);
    assert run !in runs;
    var t := s.plans[run].tasks[s.plans[run].saved];
    OtherWriteKeepsCrowd(s, PlanSaveState(s, run), t, runs);
  }

  lemma InvPlans(cfg: Config, s: State)
    requires Inv(cfg, s)
    ensures PlansOk(s.tasks, s.plans, s.origins)
  {
  }

  lemma CrowdPumpSaveTask(cfg: Config, s: State, runs: set<DagRunId>)
    requires Inv(cfg, s) && Crowd(s, runs) && s.pump.pc.SaveTask? && s.pump.queue != []
    ensures Crowd(PumpSaveTaskState(s), runs)
  {
    hide Inv, IndexersWait, FanOutKnown, FannedBehind, IsPlanned, PlannedDone, IndexerId, Started, RowsOfPlan;
    CrowdRows(cfg, s, runs);
    HeadNoIndexer(cfg, s, runs);
    HeadPlanned(cfg, s, runs);
    HeadStored(cfg, s);
    var t := s.pump.queue[0].(status := TaskStatus.Running);
    SamePlace(s.plans, s.pump.queue[0], t);
    NoneNewlyDone(s, t, runs);
    RewriteKeepsCrowd(s, PumpSaveTaskState(s), t, runs);
  }

  lemma SamePlace(plans: Plans, t: Task, t': Task)
    requires t.id == t'.id && t.dagRunId == t'.dagRunId && t.kind == t'.kind
    ensures IsPlanned(plans, t) == IsPlanned(plans, t')
  {
  }

  lemma HeadStored(cfg: Config, s: State)
    requires Inv(cfg, s) && s.pump.queue != []
    ensures var h := s.pump.queue[0];
            h.id in s.tasks && s.tasks[h.id].dagRunId == h.dagRunId && s.tasks[h.id].kind == h.kind
  {
    hide DagRunsOk, RunsOk, MembersOk, Shape, ShapesOk, NumbersOk, OrderOk, CacheOk, CacheCovers, RequestsOk,
         MessageOk, ListenerOk, DagReadOk, FanOutOk, PlansOk, TasksOk, AttemptOk;
  }

  lemma HeadNoIndexer(cfg: Config, s: State, runs: set<DagRunId>)
    requires Inv(cfg, s) && Crowd(s, runs) && s.pump.pc.SaveTask? && s.pump.queue != []
    ensures forall r :: r in runs ==> s.pump.queue[0].id != IndexerId(s.plans, r)
  {
    hide Inv, Crowd, Started;
    HeadHasAttempt(cfg, s);
    forall r | r in runs ensures s.pump.queue[0].id != IndexerId(s.plans, r) {
      IndexerNotStarted(cfg, s, runs, r);
    }
  }

  lemma HeadHasAttempt(cfg: Config, s: State)
    requires Inv(cfg, s) && s.pump.pc.SaveTask? && s.pump.queue != []
    ensures Started(s.taskRuns, s.pump, s.pump.queue[0].id)
  {
    hide DagRunsOk, RunsOk, MembersOk, Shape, ShapesOk, NumbersOk, OrderOk, CacheOk, CacheCovers, RequestsOk,
         MessageOk, ListenerOk, DagReadOk, FanOutOk, PlansOk, TasksOk, QueueOk;
    assert s.pump.pc.run.id in RunsOf(s.taskRuns, s.pump.queue[0].id);
  }

  lemma HeadPlanned(cfg: Config, s: State, runs: set<DagRunId>)
    requires QueuePlanned(s.plans, runs, s.pump.queue) && s.pump.queue != []
    ensures s.pump.queue[0].dagRunId in runs ==> IsPlanned(s.plans, s.pump.queue[0])
  {
    assert s.pump.queue[0] in s.pump.queue;
  }

  lemma NoneNewlyDone(s: State, t: Task, runs: set<DagRunId>)
    requires t.status.Running?
    ensures forall r :: r in runs && PlannedDone(s.plans, s.tasks[t.id := t], r, 2) ==> PlannedDone(s.plans, s.tasks, r, 2)
  {
  }

  lemma CrowdFanOut(cfg: Config, s: State, runs: set<DagRunId>)
    requires Inv(cfg, s) && Crowd(s, runs) && s.listener.FanOut?
    ensures Crowd(ListenFanOutState(s), runs)
  {
    hide Inv, IndexersWait, FanOutKnown, FannedBehind, QueuePlanned, HandBehind, FanOutOk, PlansOk, RowsOfPlan, RunsSaved;
    CrowdRows(cfg, s, runs);
    FanOutRow(cfg, s);
    var s' := ListenFanOutState(s);
    if s.listener.rest == [] {
      QuietKeepsCrowd(s, s', runs);
    } else if s.listener.m.dagRunId in runs {
      InsertKeepsCrowd(s, s', runs);
    } else {
      CrowdSaved(s, runs);
      OtherWriteKeepsCrowd(s, s', s.listener.rest[0], runs);
    }
  }

  lemma FanOutRow(cfg: Config, s: State)
    requires Inv(cfg, s) && s.listener.FanOut?
    ensures FanOutOk(s.tasks, s.plans, s.origins, s.listener) && PlansOk(s.tasks, s.plans, s.origins)
    ensures s.listener.rest != [] ==> s.listener.rest[0].id !in s.tasks && s.listener.rest[0].dagRunId == s.listener.m.dagRunId
  {
    hide DagRunsOk, RunsOk, MembersOk, Shape, ShapesOk, NumbersOk, OrderOk, CacheOk, CacheCovers, RequestsOk,
         MessageOk, ListenerOk, DagReadOk, PlansOk, TasksOk, AttemptOk, QueueOk;
  }

  lemma CrowdResult(cfg: Config, s: State, ids: seq<TaskId>, runs: set<DagRunId>)
    requires Inv(cfg, s) && Crowd(s, runs) && s.listener.SaveTask? && FanOutIds(cfg, s, s.listener.m, ids)
    requires Enabled(cfg, s, ListenSaveTask(ids))
    requires InOrder(s, Apply(cfg, s, ListenSaveTask(ids))) && ChunkersFanOut(cfg, s, runs)
    ensures Crowd(Apply(cfg, s, ListenSaveTask(ids)), runs)
  {
    hide Inv, Apply, Enabled, InOrder, ChunkersFanOut, FansOut, PlansOk, FanOutIds, RunsSaved, RowsOfPlan, Crowd, IndexersWait;
    CrowdSaved(s, runs);
    CrowdRows(cfg, s, runs);
    ResultWrites(cfg, s, ids);
    ResultRow(cfg, s);
    if s.listener.task.dagRunId in runs {
      OwnResult(cfg, s, Apply(cfg, s, ListenSaveTask(ids)), runs);
    } else {
      OtherWriteKeepsCrowd(s, Apply(cfg, s, ListenSaveTask(ids)), s.listener.task, runs);
    }
  }

  /** A result of a run of the crowd. */
  lemma OwnResult(cfg: Config, s: State, s': State, runs: set<DagRunId>)
    requires Crowd(s, runs) && s.listener.SaveTask? && InOrder(s, s')
    requires ChunkersFanOut(cfg, s, runs) && PlansOk(s.tasks, s.plans, s.origins)
    requires s.listener.task.dagRunId in runs && forall x :: x in s.tasks ==> s.tasks[x].id == x && x in s.origins
    requires var m, t := s.listener.m, s.listener.task;
             && t.id == m.taskId && t.id in s.tasks && s.tasks[t.id].status.Running?
             && t.dagRunId == m.dagRunId == s.tasks[t.id].dagRunId && t.kind == s.tasks[t.id].kind
             && (t.status.Success? ==> m.Success?)
             && s'.tasks == s.tasks[t.id := t] && s'.plans == s.plans && s'.pump == s.pump
             && (s'.listener.FanOut? || s'.listener.GetDag?) && s'.listener.m == m
             && (s'.listener.FanOut? && s'.listener.rest != [] <==> FansOut(cfg, m))
             && (s'.listener.FanOut? ==> forall x :: x in s'.listener.rest ==> x.id !in s.origins && x.id in s'.origins)
    ensures Crowd(s', runs)
  {
    hide InOrder, ChunkersFanOut, FansOut, PlansOk, RunsSaved, Crowd, IndexersWait, IsPlanned, PlannedDone, HandBehind, IndexerId;
    var t := s.listener.task;
    CrowdSaved(s, runs);
    RunningIsPlanned(s, runs, t.id);
    ResultFansOut(cfg, s, s', t, runs);
    HandIsBehind(s, s', runs);
    SamePlace(s.plans, s.tasks[t.id], t);
    RewriteKeepsCrowd(s, s', t, runs);
  }

  lemma CrowdSaved(s: State, runs: set<DagRunId>)
    requires Crowd(s, runs)
    ensures RunsSaved(s.plans, runs) && IndexersWait(s.tasks, s.plans, runs)
    ensures forall r :: r in runs ==> r in s.plans
  {
  }

  /** The row that the listener is about to write. */
  lemma ResultRow(cfg: Config, s: State)
    requires Inv(cfg, s) && s.listener.SaveTask?
    ensures PlansOk(s.tasks, s.plans, s.origins)
    ensures var m, t := s.listener.m, s.listener.task;
            && t.id == m.taskId && t.id in s.tasks && s.tasks[t.id].status.Running?
            && t.dagRunId == m.dagRunId == s.tasks[t.id].dagRunId && t.kind == s.tasks[t.id].kind
            && (t.status.Success? ==> m.Success?)
  {
    hide DagRunsOk, RunsOk, Shape, ShapesOk, NumbersOk, OrderOk, AttemptOk, CacheOk, CacheCovers, RequestsOk,
         MessageOk, DagReadOk, FanOutOk, PlansOk, QueueOk, MembersOk;
    HandledAttempt(s);
    SavedRow(cfg, s);
    TaskOfResult(cfg, s);
  }

  lemma TaskOfResult(cfg: Config, s: State)
    requires s.listener.SaveTask? && ListenerOk(cfg, s.tasks, s.taskRuns, s.listener)
    ensures s.tasks[s.listener.m.taskId].status.Running? && (s.listener.task.status.Success? ==> s.listener.m.Success?)
  {
  }

  lemma ResultWrites(cfg: Config, s: State, ids: seq<TaskId>)
    requires s.listener.SaveTask? && FanOutIds(cfg, s, s.listener.m, ids)
    ensures var s', m := Apply(cfg, s, ListenSaveTask(ids)), s.listener.m;
            && s'.tasks == s.tasks[s.listener.task.id := s.listener.task] && s'.plans == s.plans && s'.pump == s.pump
            && s'.listener.m == m && (s'.listener.FanOut? || s'.listener.GetDag?)
            && (s'.listener.FanOut? && s'.listener.rest != [] <==> FansOut(cfg, m))
            && (s'.listener.FanOut? ==> forall t :: t in s'.listener.rest ==> t.id !in s.origins && t.id in s'.origins)
  {
    hide Apply, Enabled, AfterSaveTask;
    var s' := ListenSaveTaskStep(cfg, s, ids);
    AfterWrites(cfg, s, ids);
  }

  lemma AfterWrites(cfg: Config, s: State, ids: seq<TaskId>)
    requires s.listener.SaveTask? && FanOutIds(cfg, s, s.listener.m, ids)
    ensures var m := s.listener.m; var l := AfterSaveTask(cfg, s, m, s.listener.task.tenantId, ids);
            && (l.FanOut? && l.rest != [] <==> FansOut(cfg, m))
            && (l.FanOut? ==> forall t :: t in l.rest ==> t.id !in s.origins && t.id in FannedOutOrigins(ids, m.dagRunId))
  {
    hide ParsedUuids, ChunkSets;
  }

  /** A row that is Running is a planned one, and no indexer of the crowd. */
  lemma RunningIsPlanned(s: State, runs: set<DagRunId>, k: TaskId)
    requires Crowd(s, runs) && k in s.tasks && s.tasks[k].id == k && s.tasks[k].status.Running? && s.tasks[k].dagRunId in runs
    ensures IsPlanned(s.plans, s.tasks[k]) && forall r :: r in runs ==> k != IndexerId(s.plans, r)
  {
    var r := s.tasks[k].dagRunId;
    assert IsPlanned(s.plans, s.tasks[k]) || IsFanned(s.tasks, s.plans, r, k);
  }

  lemma ResultFansOut(cfg: Config, s: State, s': State, t: Task, runs: set<DagRunId>)
    requires s.listener.SaveTask? && ChunkersFanOut(cfg, s, runs)
    requires PlansOk(s.tasks, s.plans, s.origins) && RunsSaved(s.plans, runs)
    requires t.id == s.listener.m.taskId && t.id in s.tasks && s.tasks[t.id].dagRunId == s.listener.m.dagRunId
    requires s'.tasks == s.tasks[t.id := t] && (t.status.Success? ==> s.listener.m.Success?)
    requires (s'.listener.FanOut? || s'.listener.GetDag?) && s'.listener.m == s.listener.m
    requires (FansOut(cfg, s.listener.m) ==> s'.listener.FanOut? && s'.listener.rest != [])
    ensures forall r :: r in runs && PlannedDone(s.plans, s'.tasks, r, 2) && !PlannedDone(s.plans, s.tasks, r, 2) ==>
              Fanning(s'.listener, r)
  {
    forall r | r in runs && PlannedDone(s.plans, s'.tasks, r, 2) && !PlannedDone(s.plans, s.tasks, r, 2)
      ensures Fanning(s'.listener, r)
    {
      assert PlanOk(s.tasks, s.origins, r, s.plans[r]);
      assert s.plans[r].tasks[2].id == t.id;
    }
  }

  lemma HandIsBehind(s: State, s': State, runs: set<DagRunId>)
    requires InOrder(s, s') && IndexersWait(s.tasks, s.plans, runs) && (forall x :: x in s.tasks ==> x in s.origins)
    requires s'.listener.FanOut? ==> forall t :: t in s'.listener.rest ==> t.id !in s.origins && t.id in s'.origins
    ensures HandBehind(s.plans, runs, s'.listener)
  {
  }
}
