/** When a stored Success is final: exactly when the run has nothing left to do. */
module WorkflowFinality {
  import opened Wrappers
  import opened WorkflowTypes
  import opened WorkflowMachine
  import opened WorkflowInvariant
  import opened WorkflowSteps
  import opened WorkflowSafety
  import opened WorkflowTermination
  import opened WorkflowStatus
  import opened WorkflowProgress
  import opened WorkflowLiveness

  // ----- continuations -----

  ghost predicate Continues(cfg: Config, path: seq<State>) {
    |path| > 0 && forall i :: 0 <= i < |path| - 1 ==> Next(cfg, path[i], path[i + 1])
  }

  /** Some execution that passes through s goes on to s'. */
  ghost predicate Leads(cfg: Config, s: State, s': State) {
    exists path :: Continues(cfg, path) && path[0] == s && path[|path| - 1] == s'
  }

  lemma LeadsHere(cfg: Config, s: State)
    ensures Leads(cfg, s, s)
  {
    assert Continues(cfg, [s]);
  }

  lemma LeadsOn(cfg: Config, s: State, s': State, step: Step)
    requires Leads(cfg, s, s') && Enabled(cfg, s', step)
    ensures Leads(cfg, s, Apply(cfg, s', step))
  {
    hide Enabled, Apply;
    var path :| Continues(cfg, path) && path[0] == s && path[|path| - 1] == s';
    var longer := path + [Apply(cfg, s', step)];
    assert Next(cfg, s', Apply(cfg, s', step));
    assert Continues(cfg, longer);
  }

  lemma {:induction false} LeadsReachable(cfg: Config, s: State, s': State)
    requires Reachable(cfg, s) && Leads(cfg, s, s')
    ensures Reachable(cfg, s')
  {
    hide Next;
    var path :| Continues(cfg, path) && path[0] == s && path[|path| - 1] == s';
    var states :| IsExecution(cfg, states) && states[|states| - 1] == s;
    var longer := states + path[1..];
    forall i | 0 <= i < |longer| - 1 ensures Next(cfg, longer[i], longer[i + 1]) {
      if i < |states| - 1 {
        assert longer[i] == states[i] && longer[i + 1] == states[i + 1];
      } else {
        assert longer[i] == path[i - |states| + 1] && longer[i + 1] == path[i - |states| + 1 + 1];
      }
    }
    assert longer[|longer| - 1] == s';
  }

  // ----- a finished Success stays -----

  /** The listener has a success of an open attempt in hand and has not stored it in the attempt's task. */
  predicate Completing(taskRuns: Runs, l: Listener) {
    && (l.SaveRun? || l.GetTask? || l.SaveTask?
        || (l.GetRun? && l.m.taskRunId in taskRuns && !taskRuns[l.m.taskRunId].status.IsTerminal()))
    && l.m.Success?
  }

  /** Some stored task of the run is not Success and not about to be. */
  ghost predicate OpenTask(tasks: Tasks, taskRuns: Runs, l: Listener, r: DagRunId) {
    exists k :: k in tasks && tasks[k].dagRunId == r && !tasks[k].status.Success? && !(Completing(taskRuns, l) && l.m.taskId == k)
  }

  /** The run is to get more tasks: planned ones, fanned-out ones being saved, or those of the result in hand. */
  ghost predicate MoreTasks(cfg: Config, s: State, r: DagRunId) {
    || (r in s.plans && s.plans[r].saved < |s.plans[r].tasks|)
    || (s.listener.FanOut? && s.listener.m.dagRunId == r && s.listener.rest != [])
    || (Completing(s.taskRuns, s.listener) && s.listener.m.dagRunId == r && FansOut(cfg, s.listener.m))
  }

  /** Something is left that a refresh of the run will see, or has seen. */
  ghost predicate Unfinished(cfg: Config, s: State, r: DagRunId) {
    || OpenTask(s.tasks, s.taskRuns, s.listener, r) || MoreTasks(cfg, s, r)
    || (s.listener.SaveDag? && s.listener.m.dagRunId == r)
  }

  ghost predicate StoredSuccess(s: State, r: DagRunId) { r in s.dagRuns && s.dagRuns[r].status.Success? }

  /** Stored as Success, with nothing left. */
  ghost predicate Done(cfg: Config, s: State, r: DagRunId) { StoredSuccess(s, r) && r in s.plans && !Unfinished(cfg, s, r) }

  lemma StepKeepsDone(cfg: Config, s: State, step: Step, r: DagRunId)
    requires Reachable(cfg, s) && Enabled(cfg, s, step) && Done(cfg, s, r)
    ensures Done(cfg, Apply(cfg, s, step), r)
  {
    hide TasksOk, DagRunsOk, RunsOk, PlansOk, MembersOk, Shape, ShapesOk, NumbersOk, OrderOk, CacheOk, Reachable,
         CacheCovers, RequestsOk, MessageOk, DagReadOk, FanOutOk, QueueOk, AttemptOk, ListenerOk, CreatedOk, MarkOk, RefreshOk,
         AgreementOk, LateOk, EarlyOk, Apply, Enabled, Done;
    ReachableInv(cfg, s);
    ReachableStatus(cfg, s);
    match step
    case PlanStart(_, _, _, _) => DoneOnPlan(cfg, s, step, r);
    case PlanSave(_) => DoneOnPlan(cfg, s, step, r);
    case PumpSaveRun => DoneOnAttempt(cfg, s, r);
    case PumpSaveTask => DoneOnDispatch(cfg, s, r);
    case PumpSaveDag => DoneOnMark(cfg, s, r);
    case PumpList(_) => DoneOnQuiet(cfg, s, step, r);
    case PumpCheck => DoneOnQuiet(cfg, s, step, r);
    case PumpCount(_) => DoneOnQuiet(cfg, s, step, r);
    case PumpGetDag => DoneOnQuiet(cfg, s, step, r);
    case PumpPublish => DoneOnQuiet(cfg, s, step, r);
    case Receive(_, _) => DoneOnReceive(cfg, s, step, r);
    case ListenGetRun => DoneOnGetRun(cfg, s, r);
    case ListenSaveRun => DoneOnSaveRun(cfg, s, r);
    case ListenGetTask => DoneOnGetTask(cfg, s, r);
    case ListenCount => DoneOnCount(cfg, s, r);
    case ListenSaveTask(_) => DoneOnResult(cfg, s, step, r);
    case ListenFanOut => DoneOnFanOut(cfg, s, r);
    case ListenGetDag => DoneOnGetDag(cfg, s, r);
    case ListenTasks => DoneOnListing(cfg, s, r);
    case ListenSaveDag => DoneOnRefresh(cfg, s, r);
  }

  lemma DoneOnPlan(cfg: Config, s: State, step: Step, r: DagRunId)
    requires Done(cfg, s, r) && Enabled(cfg, s, step) && (step.PlanStart? || step.PlanSave?) && PlansOk(s.tasks, s.plans, s.origins)
    ensures Done(cfg, Apply(cfg, s, step), r)
  {
    hide FreshIds, PlannedOrigins, PlanOk, PlansOk, Completing, FansOut;
    if step.PlanSave? {
      NextPlanned(s, step.run);
    }
  }

  /** Steps of the pump that write no row. */
  lemma DoneOnQuiet(cfg: Config, s: State, step: Step, r: DagRunId)
    requires Done(cfg, s, r) && Enabled(cfg, s, step)
    requires step.PumpList? || step.PumpCheck? || step.PumpCount? || step.PumpGetDag? || step.PumpPublish?
    ensures Done(cfg, Apply(cfg, s, step), r)
  {
    hide Apply, Enabled, Completing, FansOut;
    Footprint(cfg, s, step);
  }

  lemma DoneOnAttempt(cfg: Config, s: State, r: DagRunId)
    requires Done(cfg, s, r) && Enabled(cfg, s, PumpSaveRun) && Inv(cfg, s)
    ensures Done(cfg, Apply(cfg, s, PumpSaveRun), r)
  {
    hide TasksOk, DagRunsOk, RunsOk, PlansOk, MembersOk, Shape, ShapesOk, NumbersOk, OrderOk, CacheOk,
         CacheCovers, RequestsOk, MessageOk, DagReadOk, FanOutOk, QueueOk, AttemptOk, ListenerOk, FansOut, Apply, Enabled;
    Footprint(cfg, s, PumpSaveRun);
    NewAttemptIsNew(cfg, s);
    if !s.listener.Idle? {
      HandledAttempt(s);
    }
    assert Completing(Apply(cfg, s, PumpSaveRun).taskRuns, s.listener) == Completing(s.taskRuns, s.listener);
  }

  lemma DoneOnDispatch(cfg: Config, s: State, r: DagRunId)
    requires Done(cfg, s, r) && Enabled(cfg, s, PumpSaveTask) && QueueOk(s.tasks, s.pump.pc, s.pump.queue)
    ensures Done(cfg, Apply(cfg, s, PumpSaveTask), r)
  {
    hide Completing, FansOut;
  }

  lemma DoneOnMark(cfg: Config, s: State, r: DagRunId)
    requires Done(cfg, s, r) && Enabled(cfg, s, PumpSaveDag) && MarkOk(s.dagRuns, s.pump)
    ensures Done(cfg, Apply(cfg, s, PumpSaveDag), r)
  {
    hide Completing, FansOut;
  }

  /** A task stored as Success has no open attempt. */
  lemma SuccessIsClosed(cfg: Config, s: State, q: TaskRunId)
    requires Reachable(cfg, s) && q in s.taskRuns
    requires s.taskRuns[q].taskId in s.tasks && s.tasks[s.taskRuns[q].taskId].status.Success?
    ensures s.taskRuns[q].status.IsTerminal()
  {
    hide TasksOk, DagRunsOk, RunsOk, PlansOk, MembersOk, Shape, ShapesOk, NumbersOk, OrderOk, CacheOk, Reachable,
         CacheCovers, RequestsOk, MessageOk, DagReadOk, FanOutOk, ListenerOk, QueueOk, AttemptOk, Quiet;
    ReachableInv(cfg, s);
    var k := s.taskRuns[q].taskId;
    SuccessIsQuiet(cfg, s, k);
    StatusTellsAttempts(cfg, s, k);
    assert q in RunsOf(s.taskRuns, k);
  }

  lemma SuccessIsQuiet(cfg: Config, s: State, k: TaskId)
    requires Inv(cfg, s) && k in s.tasks && s.tasks[k].status.Success?
    ensures Quiet(s, k)
  {
    hide DagRunsOk, RunsOk, MembersOk, Shape, ShapesOk, NumbersOk, CacheOk, PlansOk, TasksOk, OrderOk,
         CacheCovers, RequestsOk, MessageOk, DagReadOk, FanOutOk;
  }

  /** A run that is done has no open attempt but the one being completed. */
  lemma DoneIsClosed(cfg: Config, s: State, q: TaskRunId, r: DagRunId)
    requires Reachable(cfg, s) && Done(cfg, s, r) && q in s.taskRuns && s.taskRuns[q].taskId in s.tasks
    requires s.tasks[s.taskRuns[q].taskId].dagRunId == r && !Closing(s.listener)
    ensures s.taskRuns[q].status.IsTerminal() || (Completing(s.taskRuns, s.listener) && s.listener.m.taskId == s.taskRuns[q].taskId)
  {
    hide Reachable, Completing, FansOut, MoreTasks;
    if s.tasks[s.taskRuns[q].taskId].status.Success? {
      SuccessIsClosed(cfg, s, q);
    }
  }

  lemma DoneOnReceive(cfg: Config, s: State, step: Step, r: DagRunId)
    requires Done(cfg, s, r) && Enabled(cfg, s, step) && step.Receive? && Reachable(cfg, s)
    ensures Done(cfg, Apply(cfg, s, step), r)
  {
    hide Reachable, FansOut, TasksOk, DagRunsOk, RunsOk, PlansOk, MembersOk, Shape, ShapesOk, NumbersOk, OrderOk, CacheOk,
         CacheCovers, MessageOk, DagReadOk, FanOutOk, QueueOk, AttemptOk, ListenerOk;
    var rt := step.rt;
    ReachableInv(cfg, s);
    assert RequestOk(s.tasks, s.taskRuns, rt);
    if rt.dagRunId == r {
      DoneIsClosed(cfg, s, rt.taskRunId, r);
    }
  }

  lemma DoneOnGetRun(cfg: Config, s: State, r: DagRunId)
    requires Done(cfg, s, r) && Enabled(cfg, s, ListenGetRun) && Reachable(cfg, s)
    ensures Done(cfg, Apply(cfg, s, ListenGetRun), r)
  {
    assert s.listener.GetRun?;
    hide Reachable, FansOut, Apply, Enabled;
    ListenSteps(cfg, s);
  }

  /** A failure being handled is of another run. */
  lemma FailureElsewhere(cfg: Config, s: State, r: DagRunId)
    requires Done(cfg, s, r) && Reachable(cfg, s) && (s.listener.SaveRun? || Closing(s.listener)) && s.listener.m.Failed?
    ensures s.listener.m.dagRunId != r
  {
    hide Reachable, FansOut, TasksOk, DagRunsOk, RunsOk, PlansOk, MembersOk, Shape, ShapesOk, NumbersOk, OrderOk, CacheOk,
         CacheCovers, MessageOk, DagReadOk, FanOutOk, QueueOk, AttemptOk, RequestsOk, MoreTasks;
    ReachableInv(cfg, s);
    HandledAttempt(s);
    if s.listener.m.dagRunId == r && s.listener.SaveRun? {
      DoneIsClosed(cfg, s, s.listener.m.taskRunId, r);
    }
  }

  lemma DoneOnSaveRun(cfg: Config, s: State, r: DagRunId)
    requires Done(cfg, s, r) && Enabled(cfg, s, ListenSaveRun)
    ensures Done(cfg, Apply(cfg, s, ListenSaveRun), r)
  {
    assert s.listener.SaveRun?;
    hide FansOut, Apply, Enabled;
    ListenSteps(cfg, s);
  }

  lemma DoneOnGetTask(cfg: Config, s: State, r: DagRunId)
    requires Done(cfg, s, r) && Enabled(cfg, s, ListenGetTask) && ListenerOk(cfg, s.tasks, s.taskRuns, s.listener)
    ensures Done(cfg, Apply(cfg, s, ListenGetTask), r)
  {
    assert s.listener.GetTask?;
    hide FansOut, Apply, Enabled;
    ListenSteps(cfg, s);
  }

  lemma DoneOnCount(cfg: Config, s: State, r: DagRunId)
    requires Done(cfg, s, r) && Enabled(cfg, s, ListenCount) && ListenerOk(cfg, s.tasks, s.taskRuns, s.listener)
    ensures Done(cfg, Apply(cfg, s, ListenCount), r)
  {
    assert s.listener.Count?;
    hide FansOut, Apply, Enabled;
    ListenSteps(cfg, s);
  }

  lemma DoneOnResult(cfg: Config, s: State, step: Step, r: DagRunId)
    requires Done(cfg, s, r) && Enabled(cfg, s, step) && step.ListenSaveTask? && Reachable(cfg, s)
    ensures Done(cfg, Apply(cfg, s, step), r)
  {
    hide TasksOk, DagRunsOk, RunsOk, PlansOk, MembersOk, Shape, ShapesOk, NumbersOk, OrderOk, CacheOk, Reachable,
         CacheCovers, RequestsOk, MessageOk, DagReadOk, FanOutOk, QueueOk, AttemptOk, FannedOutOrigins;
    ReachableInv(cfg, s);
    HandledAttempt(s);
    SavedRow(cfg, s);
    if s.listener.m.Failed? {
      FailureElsewhere(cfg, s, r);
    }
    ResultIs(cfg, s, step);
    hide Apply, Enabled;
  }

  lemma ResultIs(cfg: Config, s: State, step: Step)
    requires Enabled(cfg, s, step) && step.ListenSaveTask? && ListenerOk(cfg, s.tasks, s.taskRuns, s.listener)
    ensures s.listener.SaveTask?
    ensures var s', m := Apply(cfg, s, step), s.listener.m;
            && s'.tasks == s.tasks[s.listener.task.id := s.listener.task] && s'.plans == s.plans && s'.dagRuns == s.dagRuns
            && s'.listener.m == m && (s'.listener.FanOut? || s'.listener.GetDag?)
            && (s'.listener.FanOut? && s'.listener.rest != [] <==> FansOut(cfg, m))
            && (m.Success? ==> s.listener.task.status.Success?)
  {
    hide FreshIds, FannedOutOrigins;
  }

  lemma DoneOnFanOut(cfg: Config, s: State, r: DagRunId)
    requires Done(cfg, s, r) && Enabled(cfg, s, ListenFanOut) && FanOutOk(s.tasks, s.plans, s.origins, s.listener)
    ensures Done(cfg, Apply(cfg, s, ListenFanOut), r)
  {
    assert s.listener.FanOut?;
    hide FansOut, Apply, Enabled;
    ListenSteps(cfg, s);
  }

  lemma DoneOnGetDag(cfg: Config, s: State, r: DagRunId)
    requires Done(cfg, s, r) && Enabled(cfg, s, ListenGetDag)
    ensures Done(cfg, Apply(cfg, s, ListenGetDag), r)
  {
    assert s.listener.GetDag?;
    hide FansOut, Apply, Enabled;
    ListenSteps(cfg, s);
  }

  lemma DoneOnListing(cfg: Config, s: State, r: DagRunId)
    requires Done(cfg, s, r) && Enabled(cfg, s, ListenTasks) && RefreshOk(s.dagRuns, s.tasks, s.early, s.late, s.listener)
    ensures Done(cfg, Apply(cfg, s, ListenTasks), r)
  {
    assert s.listener.ListTasks?;
    hide FansOut, Apply, Enabled;
    ListenSteps(cfg, s);
  }

  lemma DoneOnRefresh(cfg: Config, s: State, r: DagRunId)
    requires Done(cfg, s, r) && Enabled(cfg, s, ListenSaveDag) && DagReadOk(s.dagRuns, s.listener)
    ensures Done(cfg, Apply(cfg, s, ListenSaveDag), r)
  {
    assert s.listener.SaveDag?;
    hide FansOut, Apply, Enabled;
    ListenSteps(cfg, s);
    RefreshedId(s);
  }

  lemma {:induction false} DoneStays(cfg: Config, path: seq<State>, r: DagRunId, i: nat)
    requires Continues(cfg, path) && Reachable(cfg, path[0]) && Done(cfg, path[0], r) && i < |path|
    ensures Done(cfg, path[i], r) && Reachable(cfg, path[i])
  {
    hide Enabled, Apply, Done, Reachable;
    if i > 0 {
      DoneStays(cfg, path, r, i - 1);
      assert Next(cfg, path[i - 1], path[i - 1 + 1]);
      var step :| Enabled(cfg, path[i - 1], step) && path[i] == Apply(cfg, path[i - 1], step);
      StepKeepsDone(cfg, path[i - 1], step, r);
      Extend(cfg, path[i - 1], step);
    }
  }

  /** Whatever happens later, a finished run keeps its Success. */
  lemma FinishedSuccessStays(cfg: Config, s: State, s': State, r: DagRunId)
    requires Reachable(cfg, s) && StoredSuccess(s, r) && !Unfinished(cfg, s, r) && Leads(cfg, s, s')
    ensures StoredSuccess(s', r) && !Unfinished(cfg, s', r)
  {
    hide Next, Reachable, Unfinished, StoredSuccess;
    IsPlannedRun(cfg, s, r);
    var path :| Continues(cfg, path) && path[0] == s && path[|path| - 1] == s';
    DoneStays(cfg, path, r, |path| - 1);
  }

  lemma IsPlannedRun(cfg: Config, s: State, r: DagRunId)
    requires Reachable(cfg, s) && StoredSuccess(s, r)
    ensures r in s.plans
  {
    hide TasksOk, RunsOk, PlansOk, MembersOk, Shape, ShapesOk, NumbersOk, OrderOk, CacheOk, Reachable,
         CacheCovers, RequestsOk, MessageOk, DagReadOk, FanOutOk, QueueOk, AttemptOk, ListenerOk;
    ReachableInv(cfg, s);
  }

  // ----- the actors can always go on -----

  lemma UpperBound(keys: set<nat>) returns (b: nat)
    ensures forall k :: k in keys ==> k < b
  {
    b := 0;
    if keys != {} {
      var k :| k in keys;
      var c := UpperBound(keys - {k});
      b := if k < c then c else k + 1;
      assert forall x :: x in keys ==> x == k || x in keys - {k};
    }
  }

  lemma FreshTaskIds(s: State, n: nat) returns (ids: seq<TaskId>)
    ensures |ids| == n && FreshIds(s, ids)
    ensures forall i, k :: 0 <= i < n && k in s.origins ==> k < ids[i]
    ensures forall i, j :: 0 <= i < j < n ==> ids[i] < ids[j]
  {
    var b := UpperBound(s.origins.Keys);
    ids := seq(n, i requires i >= 0 => b + i);
  }

  function PumpRank(pc: PumpPc): nat {
    match pc
    case Check => 7
    case Count => 6
    case SaveRun(_) => 5
    case SaveTask(_) => 4
    case GetDag(_) => 3
    case SaveDag(_, _) => 2
    case Publish => 1
    case Idle => 0
  }

  ghost predicate PumpAdvances(p: Pump, p': Pump) {
    || |p'.queue| < |p.queue|
    || (|p'.queue| == |p.queue| && PumpRank(p'.pc) < PumpRank(p.pc))
    || (|p'.queue| == |p.queue| && PumpRank(p'.pc) == PumpRank(p.pc) && |p'.ready| < |p.ready|)
  }

  lemma QuietIsInOrder(s: State, s': State)
    requires s'.origins == s.origins && s'.plans == s.plans && (s'.listener.FanOut? ==> s.listener.FanOut?)
    ensures InOrder(s, s')
  {
  }

  /** A pump in the middle of a round has a next step, which brings the round closer to its end. */
  lemma PumpMoves(cfg: Config, s: State) returns (step: Step)
    requires !s.pump.pc.Idle? && QueueOk(s.tasks, s.pump.pc, s.pump.queue)
    ensures Enabled(cfg, s, step) && step.IsPump() && PumpAdvances(s.pump, Apply(cfg, s, step).pump)
    ensures InOrder(s, Apply(cfg, s, step))
  {
    hide IsReady, SiblingsUsed, Apply, Enabled, InOrder;
    PumpSteps(cfg, s);
    match s.pump.pc {
      case Check => step := PumpCheck;
      case Count =>
        var id := UpperBound(s.taskRuns.Keys);
        step := PumpCount(id);
      case SaveRun(_) => step := PumpSaveRun;
      case SaveTask(_) => step := PumpSaveTask;
      case GetDag(_) => step := PumpGetDag;
      case SaveDag(_, _) => step := PumpSaveDag;
      case Publish => step := PumpPublish;
    }
    Footprint(cfg, s, step);
    QuietIsInOrder(s, Apply(cfg, s, step));
  }

  function ListenRank(l: Listener): nat {
    match l
    case GetRun(_) => 9
    case SaveRun(_, _) => 8
    case GetTask(_) => 7
    case Count(_, _) => 6
    case SaveTask(_, _) => 5
    case FanOut(_, _) => 4
    case GetDag(_) => 3
    case ListTasks(_, _) => 2
    case SaveDag(_, _) => 1
    case Idle => 0
  }

  function Rest(l: Listener): nat { if l.FanOut? then |l.rest| else 0 }

  ghost predicate ListenerAdvances(l: Listener, l': Listener) {
    && !l.Idle? && (l'.Idle? || l'.m == l.m)
    && (ListenRank(l') < ListenRank(l) || (ListenRank(l') == ListenRank(l) && Rest(l') < Rest(l)))
  }

  lemma ListenerMoves(cfg: Config, s: State) returns (step: Step)
    requires !s.listener.Idle?
    ensures Enabled(cfg, s, step) && !step.IsPump() && !step.PlanStart? && !step.PlanSave? && !step.Receive?
    ensures ListenerAdvances(s.listener, Apply(cfg, s, step).listener) && InOrder(s, Apply(cfg, s, step))
  {
    hide DerivedStatus, Apply, Enabled, InOrder;
    ListenSteps(cfg, s);
    match s.listener {
      case GetRun(_) => step := ListenGetRun;
      case SaveRun(_, _) => step := ListenSaveRun;
      case GetTask(_) => step := ListenGetTask;
      case Count(_, _) => step := ListenCount;
      case SaveTask(_, _) => step := ResultMoves(cfg, s);
      case FanOut(_, _) => step := ListenFanOut;
      case GetDag(_) => step := ListenGetDag;
      case ListTasks(_, _) => step := ListenTasks;
      case SaveDag(_, _) => step := ListenSaveDag;
    }
    if !s.listener.SaveTask? {
      Footprint(cfg, s, step);
      QuietIsInOrder(s, Apply(cfg, s, step));
    }
  }

  lemma ResultMoves(cfg: Config, s: State) returns (step: Step)
    requires s.listener.SaveTask?
    ensures step.ListenSaveTask? && Enabled(cfg, s, step) && ListenerAdvances(s.listener, Apply(cfg, s, step).listener)
    ensures InOrder(s, Apply(cfg, s, step))
  {
    hide FreshIds, ParsedUuids, ChunkSets, Apply, Enabled;
    var m := s.listener.m;
    var n := if m.Success? && ChunkSets(m.output).Some? then |ParsedUuids(cfg, ChunkSets(m.output).value)| else 0;
    var ids := FreshTaskIds(s, n);
    step := ListenSaveTask(ids);
    var s' := ListenSaveTaskStep(cfg, s, ids);
  }

  /** The listener is not handling a result of the run. */
  predicate Elsewhere(l: Listener, r: DagRunId) { l.Idle? || l.m.dagRunId != r }

  // ----- to a state in which a late run has something to refresh it -----

  /** Stored as Success with a task that is not. */
  ghost predicate Late(s: State, r: DagRunId) { r in s.late && r in s.dagRuns && s.dagRuns[r].status.Success? }

  lemma LateStays(cfg: Config, s: State, step: Step, r: DagRunId)
    requires Reachable(cfg, s) && Enabled(cfg, s, step) && Late(s, r)
    requires step.IsPump() || (!s.listener.Idle? && s.listener.m.dagRunId != r && !step.PlanStart? && !step.PlanSave?)
    ensures Late(Apply(cfg, s, step), r)
  {
    hide Reachable;
    FinalStatusStays(cfg, s, step, r);
    ListingsKeepOthers(cfg, s, step, r);
  }

  lemma ListingsKeepOthers(cfg: Config, s: State, step: Step, r: DagRunId)
    requires Enabled(cfg, s, step) && r in s.late && (step.ListenTasks? ==> s.listener.m.dagRunId != r)
    ensures r in Apply(cfg, s, step).late
  {
    hide FreshIds, IsPendingList, Answers, FanOutIds, DerivedStatus;
    Footprint(cfg, s, step);
  }

  /** The listener finishes with the result of another run; open attempts of run r stay open. */
  lemma {:induction false} FinishResult(cfg: Config, s0: State, s: State, r: DagRunId) returns (s': State)
    requires Reachable(cfg, s0) && Leads(cfg, s0, s) && Late(s, r) && Elsewhere(s.listener, r)
    ensures Leads(cfg, s0, s') && Late(s', r) && s'.listener.Idle?
    ensures forall q :: OpenAttempt(s, r, q) ==> OpenAttempt(s', r, q)
    decreases ListenRank(s.listener), Rest(s.listener)
  {
    hide Reachable, Leads, Enabled, Apply, Late, OpenAttempt, Inv;
    s' := s;
    if !s.listener.Idle? {
      LeadsReachable(cfg, s0, s);
      ReachableInv(cfg, s);
      var step := ListenerMoves(cfg, s);
      LateStays(cfg, s, step, r);
      forall q | OpenAttempt(s, r, q) ensures OpenAttempt(Apply(cfg, s, step), r, q) {
        OtherResultKeepsOpen(cfg, s, step, r, q);
      }
      LeadsOn(cfg, s0, s, step);
      s' := FinishResult(cfg, s0, Apply(cfg, s, step), r);
    }
  }

  /** q is an open attempt of run r. */
  ghost predicate OpenAttempt(s: State, r: DagRunId, q: TaskRunId) {
    q in s.taskRuns && s.taskRuns[q].status.Running? && s.taskRuns[q].taskId in s.tasks && s.tasks[s.taskRuns[q].taskId].dagRunId == r
  }

  lemma OtherResultKeepsOpen(cfg: Config, s: State, step: Step, r: DagRunId, q: TaskRunId)
    requires Inv(cfg, s) && Enabled(cfg, s, step) && !step.IsPump() && !step.PlanStart? && !step.PlanSave? && !step.Receive?
    requires !s.listener.Idle? && s.listener.m.dagRunId != r && OpenAttempt(s, r, q)
    ensures OpenAttempt(Apply(cfg, s, step), r, q)
  {
    hide TasksOk, DagRunsOk, RunsOk, PlansOk, MembersOk, Shape, ShapesOk, NumbersOk, OrderOk, CacheOk,
         CacheCovers, RequestsOk, MessageOk, DagReadOk, FanOutOk, QueueOk, AttemptOk, ListenerOk, Apply, Enabled;
    Footprint(cfg, s, step);
    HandledAttempt(s);
    if step.ListenSaveRun? {
      CloseKeepsOther(cfg, s, q);
    } else if step.ListenSaveTask? {
      ResultIs(cfg, s, step);
      SavedRow(cfg, s);
    } else if step.ListenFanOut? {
      FanOutKeepsRows(cfg, s);
    }
  }

  lemma CloseKeepsOther(cfg: Config, s: State, q: TaskRunId)
    requires Enabled(cfg, s, ListenSaveRun) && ListenerOk(cfg, s.tasks, s.taskRuns, s.listener) && RunsOk(s.tasks, s.taskRuns)
    requires q in s.taskRuns && q != s.listener.m.taskRunId
    ensures q in Apply(cfg, s, ListenSaveRun).taskRuns && Apply(cfg, s, ListenSaveRun).taskRuns[q] == s.taskRuns[q]
  {
  }

  lemma FanOutKeepsRows(cfg: Config, s: State)
    requires Enabled(cfg, s, ListenFanOut) && FanOutOk(s.tasks, s.plans, s.origins, s.listener)
    ensures forall k :: k in s.tasks ==>
              k in Apply(cfg, s, ListenFanOut).tasks && Apply(cfg, s, ListenFanOut).tasks[k] == s.tasks[k]
  {
  }

  lemma OpenStays(cfg: Config, s: State, step: Step, r: DagRunId, q: TaskRunId)
    requires Inv(cfg, s) && Enabled(cfg, s, step) && step.IsPump() && OpenAttempt(s, r, q)
    ensures OpenAttempt(Apply(cfg, s, step), r, q)
  {
    hide TasksOk, DagRunsOk, RunsOk, PlansOk, MembersOk, Shape, ShapesOk, NumbersOk, OrderOk, CacheOk,
         CacheCovers, RequestsOk, MessageOk, DagReadOk, FanOutOk, QueueOk, AttemptOk, ListenerOk, Apply, Enabled;
    Footprint(cfg, s, step);
    if step.PumpSaveRun? {
      NewAttemptIsNew(cfg, s);
    } else if step.PumpSaveTask? {
      DispatchKeepsRun(cfg, s);
    }
  }

  lemma DispatchKeepsRun(cfg: Config, s: State)
    requires Enabled(cfg, s, PumpSaveTask) && QueueOk(s.tasks, s.pump.pc, s.pump.queue)
    ensures forall k :: k in s.tasks ==>
              k in Apply(cfg, s, PumpSaveTask).tasks && Apply(cfg, s, PumpSaveTask).tasks[k].dagRunId == s.tasks[k].dagRunId
  {
  }

  lemma NextPumpStep(cfg: Config, s0: State, s: State, r: DagRunId) returns (step: Step)
    requires Reachable(cfg, s0) && Leads(cfg, s0, s) && Late(s, r) && !s.pump.pc.Idle?
    ensures Inv(cfg, s) && Enabled(cfg, s, step) && step.IsPump() && PumpAdvances(s.pump, Apply(cfg, s, step).pump)
    ensures var s' := Apply(cfg, s, step); Leads(cfg, s0, s') && Late(s', r) && s'.listener == s.listener
  {
    hide Reachable, Leads, Enabled, Apply, Late, PumpAdvances;
    LeadsReachable(cfg, s0, s);
    ReachableInv(cfg, s);
    step := PumpMoves(cfg, s);
    Footprint(cfg, s, step);
    LateStays(cfg, s, step, r);
    LeadsOn(cfg, s0, s, step);
  }

  /** The pump finishes its round; open attempts stay open. */
  lemma {:induction false} FinishRound(cfg: Config, s0: State, s: State, r: DagRunId) returns (s': State)
    requires Reachable(cfg, s0) && Leads(cfg, s0, s) && Late(s, r) && s.listener.Idle?
    ensures Leads(cfg, s0, s') && Late(s', r) && s'.listener.Idle? && s'.pump.pc.Idle?
    ensures forall q :: OpenAttempt(s, r, q) ==> OpenAttempt(s', r, q)
    decreases |s.pump.queue|, PumpRank(s.pump.pc), |s.pump.ready|
  {
    hide Reachable, Leads, Enabled, Apply, Late, OpenAttempt, Inv;
    s' := s;
    if !s.pump.pc.Idle? {
      var step := NextPumpStep(cfg, s0, s, r);
      forall q | OpenAttempt(s, r, q) ensures OpenAttempt(Apply(cfg, s, step), r, q) {
        OpenStays(cfg, s, step, r, q);
      }
      s' := FinishRound(cfg, s0, Apply(cfg, s, step), r);
    }
  }

  /** A round with a ready task of the run ahead of it dispatches one. */
  lemma {:induction false} RoundOpens(cfg: Config, s0: State, s: State, r: DagRunId, t: TaskId) returns (s': State, q: TaskRunId)
    requires Reachable(cfg, s0) && Leads(cfg, s0, s) && Late(s, r) && s.listener.Idle? && Ahead(s, r, t)
    ensures Leads(cfg, s0, s') && Late(s', r) && s'.listener.Idle? && OpenAttempt(s', r, q)
    decreases |s.pump.queue|, PumpRank(s.pump.pc), |s.pump.ready|
  {
    hide Reachable, Leads, Enabled, Apply, Late, OpenAttempt, Dispatches, Ahead, Inv;
    AheadIsInRound(s, r, t);
    var step := NextPumpStep(cfg, s0, s, r);
    StepStaysAhead(cfg, s, step, r, t);
    s' := Apply(cfg, s, step);
    if Dispatches(s, s', r) {
      q := DispatchOpens(cfg, s, step, r);
    } else {
      s', q := RoundOpens(cfg, s0, s', r, t);
    }
  }

  lemma AheadIsInRound(s: State, r: DagRunId, t: TaskId)
    requires Ahead(s, r, t)
    ensures !s.pump.pc.Idle?
  {
  }

  lemma DispatchOpens(cfg: Config, s: State, step: Step, r: DagRunId) returns (q: TaskRunId)
    requires Inv(cfg, s) && Enabled(cfg, s, step) && step.IsPump() && Dispatches(s, Apply(cfg, s, step), r)
    ensures OpenAttempt(Apply(cfg, s, step), r, q)
  {
    hide TasksOk, DagRunsOk, RunsOk, PlansOk, MembersOk, Shape, ShapesOk, NumbersOk, OrderOk, CacheOk,
         CacheCovers, RequestsOk, MessageOk, DagReadOk, FanOutOk, ListenerOk, Apply, Enabled;
    Footprint(cfg, s, step);
    assert step.PumpSaveRun?;
    assert Apply(cfg, s, step).tasks == s.tasks;
    q := s.pump.pc.run.id;
  }

  // ----- a round starts -----

  lemma PendingQueue(tasks: Tasks, keys: set<TaskId>) returns (queue: seq<Task>)
    requires forall k :: k in keys ==> k in tasks && tasks[k].id == k
    ensures forall i :: 0 <= i < |queue| ==> queue[i].id in keys && tasks[queue[i].id] == queue[i]
    ensures forall i, j :: 0 <= i < j < |queue| ==> queue[i].id < queue[j].id
    ensures forall k :: k in keys ==> tasks[k] in queue
  {
    queue := [];
    if keys != {} {
      var top := Greatest(keys);
      var front := PendingQueue(tasks, keys - {top});
      assert forall k :: k in keys ==> k == top || k in keys - {top};
      queue := front + [tasks[top]];
    }
  }

  lemma Greatest(keys: set<nat>) returns (top: nat)
    requires keys != {}
    ensures top in keys && forall k :: k in keys ==> k <= top
  {
    var k :| k in keys;
    top := k;
    if keys - {k} != {} {
      var other := Greatest(keys - {k});
      top := if other < k then k else other;
    }
    assert forall x :: x in keys ==> x == k || x in keys - {k};
  }

  /** Between rounds a round can start, whatever the limit; without one its batch holds every Pending task. */
  lemma RoundCanStart(cfg: Config, s: State) returns (queue: seq<Task>)
    requires TasksOk(s.tasks, s.plans, s.origins)
    ensures IsPendingList(cfg, s.tasks, queue)
    ensures cfg.maxBatch.None? ==> forall k :: k in s.tasks && s.tasks[k].status.Pending? ==> s.tasks[k] in queue
  {
    var keys := set k | k in s.tasks && s.tasks[k].status.Pending?;
    var all := PendingQueue(s.tasks, keys);
    queue := if cfg.maxBatch.Some? && cfg.maxBatch.value < |all| then all[..cfg.maxBatch.value] else all;
    forall k | k in s.tasks && s.tasks[k].status.Pending? && s.tasks[k] !in queue
      ensures forall i :: 0 <= i < |queue| ==> queue[i].id < k
    {
      var j :| 0 <= j < |all| && all[j] == s.tasks[k];
      assert j >= |queue|;
    }
  }

  /** A round may list a ready task of the run. */
  ghost predicate CanBeListed(cfg: Config, s: State, r: DagRunId) {
    exists queue :: IsPendingList(cfg, s.tasks, queue) && ListsReady(s.tasks, r, queue)
  }

  ghost predicate HasOpenAttempt(s: State, r: DagRunId) { exists q :: OpenAttempt(s, r, q) }

  /** Between rounds, a late run has an open attempt or gets one in the next round. */
  lemma LateGetsOpen(cfg: Config, s0: State, s: State, r: DagRunId) returns (s': State, q: TaskRunId)
    requires Reachable(cfg, s0) && Leads(cfg, s0, s) && Late(s, r) && s.listener.Idle? && s.pump.pc.Idle?
    requires HasOpenAttempt(s, r) || CanBeListed(cfg, s, r)
    ensures Leads(cfg, s0, s') && Late(s', r) && s'.listener.Idle? && s'.pump.pc.Idle? && OpenAttempt(s', r, q)
  {
    hide Reachable, Leads, Enabled, Apply, Late, OpenAttempt, Inv, Ahead, CanBeListed;
    if q' :| OpenAttempt(s, r, q') {
      s', q := s, q';
    } else {
      LeadsReachable(cfg, s0, s);
      ReachableInv(cfg, s);
      var t, queue := ListedStarts(cfg, s, r);
      LateStays(cfg, s, PumpList(queue), r);
      LeadsOn(cfg, s0, s, PumpList(queue));
      Footprint(cfg, s, PumpList(queue));
      var s1, q1 := RoundOpens(cfg, s0, Apply(cfg, s, PumpList(queue)), r, t);
      s' := FinishRound(cfg, s0, s1, r);
      q := q1;
    }
  }

  lemma LateIsStalled(cfg: Config, s: State, r: DagRunId)
    requires Reachable(cfg, s) && Inv(cfg, s) && Late(s, r) && s.listener.Idle? && s.pump.pc.Idle? && !HasOpenAttempt(s, r)
    ensures Stalled(s, r)
  {
    hide Reachable, Inv, Attempts, NoneRunning;
    LateIsRunning(cfg, s, r);
    NoOpenAttempt(cfg, s, r);
    IdleIsAway(s.listener, r);
    NoTaskRunning(cfg, s, r);
  }

  lemma ListedStarts(cfg: Config, s: State, r: DagRunId) returns (t: TaskId, queue: seq<Task>)
    requires Reachable(cfg, s) && Inv(cfg, s) && Late(s, r) && s.listener.Idle? && s.pump.pc.Idle?
    requires !HasOpenAttempt(s, r) && CanBeListed(cfg, s, r)
    ensures Enabled(cfg, s, PumpList(queue)) && Ahead(Apply(cfg, s, PumpList(queue)), r, t)
  {
    hide Reachable, Inv, Apply, Enabled, Ahead, IsReady, Siblings, IsPendingList, Stalled, HasOpenAttempt;
    LateIsStalled(cfg, s, r);
    queue :| IsPendingList(cfg, s.tasks, queue) && ListsReady(s.tasks, r, queue);
    t :| ReadyNow(s.tasks, r, t) && s.tasks[t] in queue;
    StartsAhead(cfg, s, queue, r, t);
  }

  /** Without a batch limit a round lists a ready task of every stalled run. */
  lemma UnlimitedCanList(cfg: Config, s: State, r: DagRunId)
    requires Reachable(cfg, s) && Inv(cfg, s) && Stalled(s, r) && cfg.maxBatch.None?
    ensures CanBeListed(cfg, s, r)
  {
    hide Reachable, Inv, IsReady, Siblings, IsPendingList, Stalled;
    var t := StalledRunHasReadyTask(cfg, s, r);
    var queue := InvRoundCanStart(cfg, s, r, t);
    assert ListsReady(s.tasks, r, queue);
  }

  lemma LateIsRunning(cfg: Config, s: State, r: DagRunId)
    requires Reachable(cfg, s) && Late(s, r) && s.listener.Idle?
    ensures DerivedStatus(s.tasks, r).Running?
  {
    hide Reachable;
    StoredStatusAgrees(cfg, s, r);
  }

  lemma NoOpenAttempt(cfg: Config, s: State, r: DagRunId)
    requires Inv(cfg, s) && !HasOpenAttempt(s, r)
    ensures NoneRunning(s, r)
  {
    hide Inv, Attempts;
    forall q | q in Attempts(s, r) ensures !Attempts(s, r)[q].status.Running? {
      AttemptIn(cfg, s, q, r);
      AttemptOf(cfg, s, q);
      assert !OpenAttempt(s, r, q);
    }
  }

  lemma InvRoundCanStart(cfg: Config, s: State, r: DagRunId, t: TaskId) returns (queue: seq<Task>)
    requires cfg.maxBatch.None? && Inv(cfg, s) && ReadyNow(s.tasks, r, t)
    ensures IsPendingList(cfg, s.tasks, queue) && t in s.tasks && s.tasks[t] in queue
  {
    queue := RoundCanStart(cfg, s);
  }

  lemma StartsAhead(cfg: Config, s: State, queue: seq<Task>, r: DagRunId, t: TaskId)
    requires Inv(cfg, s) && s.listener.Idle? && s.pump.pc.Idle? && Stalled(s, r) && ReadyNow(s.tasks, r, t)
    requires IsPendingList(cfg, s.tasks, queue) && s.tasks[t] in queue
    ensures Enabled(cfg, s, PumpList(queue)) && Ahead(Apply(cfg, s, PumpList(queue)), r, t)
  {
    hide Inv, Apply, Enabled, Ahead, ReadyNow, IsPendingList, Stalled, AttemptsClosed;
    StalledAttemptsClosed(cfg, s, r);
    var s' := PumpListStep(cfg, s, queue);
    assert Next(cfg, s, s');
    RoundStarts(cfg, s, s', r, t);
  }

  // ----- a failure refreshes the run -----

  /** A failed attempt of an open task leaves the run unfinished, and its refresh stores that. */
  lemma FailureReverts(cfg: Config, s0: State, s: State, r: DagRunId, q: TaskRunId) returns (s': State)
    requires Reachable(cfg, s0) && Leads(cfg, s0, s) && Late(s, r) && s.listener.Idle? && s.pump.pc.Idle? && OpenAttempt(s, r, q)
    ensures Leads(cfg, s0, s') && r in s'.dagRuns && !s'.dagRuns[r].status.Success?
  {
    hide Reachable, Leads, Enabled, Apply, Inv;
    LeadsReachable(cfg, s0, s);
    var rt := PublishedBetweenRounds(cfg, s, q);
    var m := WorkerStatus.Failed(r, rt.taskId, q, "", None);
    var s1 := ReceiveStep(cfg, s, rt, m);
    LeadsOn(cfg, s0, s, Receive(rt, m));
    ListenSteps(cfg, s1);
    LeadsOn(cfg, s0, s1, ListenGetRun);
    var s2 := ListenGetRunState(s1);
    ListenSteps(cfg, s2);
    LeadsOn(cfg, s0, s2, ListenSaveRun);
    var s3 := ListenSaveRunState(s2);
    ListenSteps(cfg, s3);
    LeadsOn(cfg, s0, s3, ListenGetTask);
    var s4 := ListenGetTaskState(cfg, s3);
    ListenSteps(cfg, s4);
    LeadsOn(cfg, s0, s4, ListenCount);
    var s5 := ListenCountState(cfg, s4);
    assert s5.listener.SaveTask? && s5.dagRuns == s.dagRuns && s5.tasks == s.tasks;
    LeadsReachable(cfg, s0, s);
    ReachableInv(cfg, s);
    RowIds(cfg, s, rt.taskId, r);
    s' := RefreshReverts(cfg, s0, s5, r);
  }

  lemma RowIds(cfg: Config, s: State, k: TaskId, r: DagRunId)
    requires Inv(cfg, s) && k in s.tasks && r in s.dagRuns
    ensures s.tasks[k].id == k && s.dagRuns[r].id == r
  {
  }

  lemma ReceiveStep(cfg: Config, s: State, rt: ReadyTask, m: WorkerStatus) returns (s': State)
    requires s.listener.Idle? && rt in s.sent && Answers(m, rt)
    ensures Enabled(cfg, s, Receive(rt, m)) && Apply(cfg, s, Receive(rt, m)) == s' == s.(listener := Listener.GetRun(m))
  {
    s' := s.(listener := Listener.GetRun(m));
  }

  /** Storing a task of the run that is not Success, then refreshing. */
  lemma RefreshReverts(cfg: Config, s0: State, s: State, r: DagRunId) returns (s': State)
    requires Leads(cfg, s0, s) && s.listener.SaveTask? && s.listener.m.Failed? && s.listener.m.dagRunId == r
    requires s.listener.task.dagRunId == r && !s.listener.task.status.Success? && !s.listener.task.status.Skipped?
    requires r in s.dagRuns && s.dagRuns[r].status.Success? && s.dagRuns[r].id == r
    ensures Leads(cfg, s0, s') && r in s'.dagRuns && !s'.dagRuns[r].status.Success?
  {
    hide Leads, Enabled, Apply, DerivedStatus, FannedOutOrigins;
    var s1 := ListenSaveTaskStep(cfg, s, []);
    LeadsOn(cfg, s0, s, ListenSaveTask([]));
    ListenSteps(cfg, s1);
    LeadsOn(cfg, s0, s1, ListenGetDag);
    var s2 := ListenGetDagState(s1);
    NotDone(s1.tasks, s.listener.task.id, r);
    ListenSteps(cfg, s2);
    LeadsOn(cfg, s0, s2, ListenTasks);
    var s3 := ListenTasksState(s2);
    ListenSteps(cfg, s3);
    LeadsOn(cfg, s0, s3, ListenSaveDag);
    s' := ListenSaveDagState(s3);
  }

  lemma NotDone(tasks: Tasks, k: TaskId, r: DagRunId)
    requires k in tasks && tasks[k].dagRunId == r && !tasks[k].status.Success? && !tasks[k].status.Skipped?
    ensures !DerivedStatus(tasks, r).Success?
  {
  }

  // ----- the law -----

  ghost predicate CanRevert(cfg: Config, s: State, r: DagRunId) {
    exists s' :: Leads(cfg, s, s') && r in s'.dagRuns && !s'.dagRuns[r].status.Success?
  }

  /** Under any batch limit: between rounds and results, a late run's Success can be taken back if the run has an open
      attempt or a round may list a ready task of it. */
  lemma ListedCanRevert(cfg: Config, s0: State, s: State, r: DagRunId)
    requires Reachable(cfg, s0) && Leads(cfg, s0, s) && Late(s, r) && s.listener.Idle? && s.pump.pc.Idle?
    requires HasOpenAttempt(s, r) || CanBeListed(cfg, s, r)
    ensures CanRevert(cfg, s0, r)
  {
    hide Reachable, Leads, Late, OpenAttempt, CanBeListed, HasOpenAttempt;
    var s1, q := LateGetsOpen(cfg, s0, s, r);
    var s2 := FailureReverts(cfg, s0, s1, r, q);
  }

  /** Whenever the run is stalled between two rounds, now or later, a round may list a ready task of it. */
  ghost predicate NeverCrowdedOut(cfg: Config, s: State, r: DagRunId) {
    forall s' :: Leads(cfg, s, s') && s'.pump.pc.Idle? && Stalled(s', r) ==> CanBeListed(cfg, s', r)
  }

  /** Which is so without a batch limit. */
  lemma UnlimitedIsNeverCrowdedOut(cfg: Config, s: State, r: DagRunId)
    requires Reachable(cfg, s) && cfg.maxBatch.None?
    ensures NeverCrowdedOut(cfg, s, r)
  {
    hide Reachable, Leads, Stalled, CanBeListed, Inv;
    forall s' | Leads(cfg, s, s') && s'.pump.pc.Idle? && Stalled(s', r) ensures CanBeListed(cfg, s', r) {
      LeadsReachable(cfg, s, s');
      ReachableInv(cfg, s');
      UnlimitedCanList(cfg, s', r);
    }
  }

  lemma LateCanRevert(cfg: Config, s0: State, s: State, r: DagRunId)
    requires Reachable(cfg, s0) && Leads(cfg, s0, s) && Late(s, r) && Elsewhere(s.listener, r) && NeverCrowdedOut(cfg, s0, r)
    ensures CanRevert(cfg, s0, r)
  {
    hide Reachable, Leads, Late, OpenAttempt, CanBeListed, HasOpenAttempt, Inv, Stalled, CanRevert;
    var s1 := FinishResult(cfg, s0, s, r);
    var s2 := FinishRound(cfg, s0, s1, r);
    LeadsReachable(cfg, s0, s2);
    ReachableInv(cfg, s2);
    if !HasOpenAttempt(s2, r) {
      LateIsStalled(cfg, s2, r);
    }
    ListedCanRevert(cfg, s0, s2, r);
  }

  /** The listener goes on with a result of an unfinished run: the run stays unfinished, or its Success is taken back. */
  lemma HandlingKeepsUnfinished(cfg: Config, s: State, step: Step, r: DagRunId)
    requires Reachable(cfg, s) && Enabled(cfg, s, step) && StoredSuccess(s, r) && Unfinished(cfg, s, r)
    requires !s.listener.Idle? && s.listener.m.dagRunId == r && !step.IsPump() && !step.PlanStart? && !step.PlanSave?
    ensures var s' := Apply(cfg, s, step); r in s'.dagRuns && (s'.dagRuns[r].status.Success? ==> Unfinished(cfg, s', r))
  {
    hide TasksOk, DagRunsOk, RunsOk, PlansOk, MembersOk, Shape, ShapesOk, NumbersOk, OrderOk, CacheOk, Reachable,
         CacheCovers, RequestsOk, MessageOk, DagReadOk, FanOutOk, QueueOk, AttemptOk, ListenerOk, CreatedOk, MarkOk,
         AgreementOk, LateOk, EarlyOk, FansOut, DerivedStatus, RefreshOk;
    FinalStatusStays(cfg, s, step, r);
    hide Apply, Enabled, Unfinished;
    ReachableInv(cfg, s);
    ReachableStatus(cfg, s);
    NothingSkipped(cfg, s);
    HandledAttempt(s);
    CountsFailures(cfg, s);
    match s.listener
    case GetRun(_) => StartKeepsUnfinished(cfg, s, step, r);
    case SaveRun(_, _) => StartKeepsUnfinished(cfg, s, step, r);
    case GetTask(_) => StartKeepsUnfinished(cfg, s, step, r);
    case Count(_, _) => StartKeepsUnfinished(cfg, s, step, r);
    case SaveTask(_, _) => ResultKeepsUnfinished(cfg, s, step, r);
    case FanOut(_, _) => FanOutKeepsUnfinished(cfg, s, step, r);
    case GetDag(_) => RefreshKeepsUnfinished(cfg, s, step, r);
    case ListTasks(_, _) => RefreshKeepsUnfinished(cfg, s, step, r);
    case SaveDag(_, _) => WriteReverts(cfg, s, step, r);
  }

  lemma CountsFailures(cfg: Config, s: State)
    requires ListenerOk(cfg, s.tasks, s.taskRuns, s.listener)
    ensures s.listener.Count? ==> s.listener.m.Failed?
  {
  }

  /** Before the result is stored in its task. */
  lemma StartKeepsUnfinished(cfg: Config, s: State, step: Step, r: DagRunId)
    requires Enabled(cfg, s, step) && !step.IsPump() && !step.PlanStart? && !step.PlanSave? && Unfinished(cfg, s, r)
    requires s.listener.GetRun? || s.listener.SaveRun? || s.listener.GetTask? || s.listener.Count?
    requires s.listener.m.taskId in s.tasks && s.listener.m.taskRunId in s.taskRuns && (s.listener.Count? ==> s.listener.m.Failed?)
    ensures Unfinished(cfg, Apply(cfg, s, step), r)
  {
    hide FansOut;
    assert step == if s.listener.GetRun? then ListenGetRun else if s.listener.SaveRun? then ListenSaveRun
                   else if s.listener.GetTask? then ListenGetTask else ListenCount;
    hide Apply, Enabled, OpenTask;
    ListenSteps(cfg, s);
    var s' := Apply(cfg, s, step);
    assert Completing(s'.taskRuns, s'.listener) ==> Completing(s.taskRuns, s.listener) && s'.listener.m == s.listener.m;
    if OpenTask(s.tasks, s.taskRuns, s.listener, r) {
      KeepOpenTask(s, s', r);
    }
  }

  lemma KeepOpenTask(s: State, s': State, r: DagRunId)
    requires OpenTask(s.tasks, s.taskRuns, s.listener, r)
    requires s'.tasks == s.tasks
    requires Completing(s'.taskRuns, s'.listener) ==> Completing(s.taskRuns, s.listener) && s'.listener.m == s.listener.m
    ensures OpenTask(s'.tasks, s'.taskRuns, s'.listener, r)
  {
    hide Completing;
  }

  /** Storing the result: a failure leaves its task open; a success leaves the other open tasks, or starts its fan-out. */
  lemma ResultKeepsUnfinished(cfg: Config, s: State, step: Step, r: DagRunId)
    requires Inv(cfg, s) && Enabled(cfg, s, step) && !step.IsPump() && !step.PlanStart? && !step.PlanSave? && Unfinished(cfg, s, r)
    requires s.listener.SaveTask? && s.listener.m.dagRunId == r
    ensures Unfinished(cfg, Apply(cfg, s, step), r)
  {
    hide TasksOk, DagRunsOk, RunsOk, PlansOk, MembersOk, Shape, ShapesOk, NumbersOk, OrderOk, CacheOk,
         CacheCovers, RequestsOk, MessageOk, DagReadOk, FanOutOk, QueueOk, AttemptOk, FannedOutOrigins, FansOut;
    assert step.ListenSaveTask?;
    HandledAttempt(s);
    SavedRow(cfg, s);
    ResultIs(cfg, s, step);
    hide Apply, Enabled;
    var s' := Apply(cfg, s, step);
    if s.listener.m.Failed? {
      assert !s'.tasks[s.listener.m.taskId].status.Success?;
      assert OpenTask(s'.tasks, s'.taskRuns, s'.listener, r);
    } else if OpenTask(s.tasks, s.taskRuns, s.listener, r) {
      var k :| k in s.tasks && s.tasks[k].dagRunId == r && !s.tasks[k].status.Success?
               && !(Completing(s.taskRuns, s.listener) && s.listener.m.taskId == k);
      assert k in s'.tasks && s'.tasks[k] == s.tasks[k];
    }
  }

  lemma FanOutKeepsUnfinished(cfg: Config, s: State, step: Step, r: DagRunId)
    requires FanOutOk(s.tasks, s.plans, s.origins, s.listener)
    requires Enabled(cfg, s, step) && !step.IsPump() && !step.PlanStart? && !step.PlanSave? && Unfinished(cfg, s, r)
    requires s.listener.FanOut? && s.listener.m.dagRunId == r
    ensures Unfinished(cfg, Apply(cfg, s, step), r)
  {
    assert step == ListenFanOut;
    hide Apply, Enabled, FansOut;
    ListenSteps(cfg, s);
    var s' := Apply(cfg, s, step);
    if s.listener.rest != [] {
      var t := s.listener.rest[0];
      assert t.id in s'.tasks && s'.tasks[t.id] == t;
      assert OpenTask(s'.tasks, s'.taskRuns, s'.listener, r);
    } else {
      assert OpenTask(s.tasks, s.taskRuns, s.listener, r) ==> OpenTask(s'.tasks, s'.taskRuns, s'.listener, r);
    }
  }

  lemma RefreshKeepsUnfinished(cfg: Config, s: State, step: Step, r: DagRunId)
    requires RefreshOk(s.dagRuns, s.tasks, s.early, s.late, s.listener) && StoredSuccess(s, r)
    requires forall k :: k in s.tasks ==> !s.tasks[k].status.Skipped?
    requires Enabled(cfg, s, step) && !step.IsPump() && !step.PlanStart? && !step.PlanSave? && Unfinished(cfg, s, r)
    requires (s.listener.GetDag? || s.listener.ListTasks?) && s.listener.m.dagRunId == r
    ensures Unfinished(cfg, Apply(cfg, s, step), r)
  {
    assert step == if s.listener.GetDag? then ListenGetDag else ListenTasks;
    hide Apply, Enabled, FansOut;
    ListenSteps(cfg, s);
    if OpenTask(s.tasks, s.taskRuns, s.listener, r) {
      var k :| k in s.tasks && s.tasks[k].dagRunId == r && !s.tasks[k].status.Success?;
      NotDone(s.tasks, k, r);
    }
  }

  lemma WriteReverts(cfg: Config, s: State, step: Step, r: DagRunId)
    requires Enabled(cfg, s, step) && !step.IsPump() && !step.PlanStart? && !step.PlanSave? && s.listener.SaveDag?
    ensures step == ListenSaveDag
  {
  }

  /** The listener finishes with a result of the run: still unfinished, or no longer Success. */
  lemma {:induction false} FinishOwnResult(cfg: Config, s0: State, s: State, r: DagRunId) returns (s': State)
    requires Reachable(cfg, s0) && Leads(cfg, s0, s) && StoredSuccess(s, r) && Unfinished(cfg, s, r) && !Elsewhere(s.listener, r)
    ensures Leads(cfg, s0, s') && r in s'.dagRuns
    ensures s'.dagRuns[r].status.Success? ==> s'.listener.Idle? && Unfinished(cfg, s', r)
    decreases ListenRank(s.listener), Rest(s.listener)
  {
    hide Reachable, Leads, Enabled, Apply, Unfinished;
    LeadsReachable(cfg, s0, s);
    var step := ListenerMoves(cfg, s);
    HandlingKeepsUnfinished(cfg, s, step, r);
    LeadsOn(cfg, s0, s, step);
    s' := Apply(cfg, s, step);
    if s'.dagRuns[r].status.Success? && !s'.listener.Idle? {
      s' := FinishOwnResult(cfg, s0, s', r);
    }
  }

  /** With the listener elsewhere, an unfinished run is late or can be made so by the next save of its plan. */
  lemma UnfinishedIsLate(cfg: Config, s: State, r: DagRunId)
    requires Reachable(cfg, s) && StoredSuccess(s, r) && Elsewhere(s.listener, r)
    ensures Unfinished(cfg, s, r) <==> Late(s, r) || (r in s.plans && s.plans[r].saved < |s.plans[r].tasks|)
  {
    hide TasksOk, DagRunsOk, RunsOk, PlansOk, MembersOk, Shape, ShapesOk, NumbersOk, OrderOk, CacheOk, Reachable,
         CacheCovers, RequestsOk, DagReadOk, FanOutOk, QueueOk, AttemptOk, ListenerOk, FansOut, MessageOk;
    ReachableInv(cfg, s);
    StoredStatusAgrees(cfg, s, r);
    NothingSkipped(cfg, s);
    if !s.listener.Idle? {
      HandledAttempt(s);
    }
    assert OpenTask(s.tasks, s.taskRuns, s.listener, r) <==> !DerivedStatus(s.tasks, r).Success? by {
      OpenIsNotDone(s, r);
    }
  }

  lemma OpenIsNotDone(s: State, r: DagRunId)
    requires forall k :: k in s.tasks ==> !s.tasks[k].status.Skipped?
    requires s.listener.Idle? || (s.listener.m.taskId in s.tasks && s.tasks[s.listener.m.taskId].dagRunId != r)
    ensures OpenTask(s.tasks, s.taskRuns, s.listener, r) <==> !DerivedStatus(s.tasks, r).Success?
  {
    if k :| k in s.tasks && s.tasks[k].dagRunId == r && !s.tasks[k].status.Success? {
      assert !(Completing(s.taskRuns, s.listener) && s.listener.m.taskId == k);
      NotDone(s.tasks, k, r);
    }
  }

  lemma UnfinishedCanRevert(cfg: Config, s0: State, s: State, r: DagRunId)
    requires Reachable(cfg, s0) && Leads(cfg, s0, s) && StoredSuccess(s, r) && Unfinished(cfg, s, r) && Elsewhere(s.listener, r)
    requires NeverCrowdedOut(cfg, s0, r)
    ensures CanRevert(cfg, s0, r)
  {
    hide Reachable, Leads, Enabled, Apply, Unfinished, NeverCrowdedOut;
    LeadsReachable(cfg, s0, s);
    UnfinishedIsLate(cfg, s, r);
    if Late(s, r) {
      LateCanRevert(cfg, s0, s, r);
    } else {
      LateOnSave(cfg, s, r);
      LeadsOn(cfg, s0, s, PlanSave(r));
      LateCanRevert(cfg, s0, Apply(cfg, s, PlanSave(r)), r);
    }
  }

  lemma LateOnSave(cfg: Config, s: State, r: DagRunId)
    requires r in s.plans && s.plans[r].saved < |s.plans[r].tasks| && Elsewhere(s.listener, r) && StoredSuccess(s, r)
    ensures Enabled(cfg, s, PlanSave(r)) && Late(Apply(cfg, s, PlanSave(r)), r)
    ensures Apply(cfg, s, PlanSave(r)).listener == s.listener
  {
  }

  // ----- no Success is taken back before an attempt opens -----

  /** Some continuation dispatches a task of the run, or a dispatched one is open already. */
  ghost predicate CanOpen(cfg: Config, s: State, r: DagRunId) {
    exists s' :: Leads(cfg, s, s') && HasOpenAttempt(s', r)
  }

  /** The listener has nothing of the run in hand but the result of a closed attempt. */
  ghost predicate Idling(s: State, r: DagRunId) {
    Elsewhere(s.listener, r) || (s.listener.GetRun? && Terminal(s.taskRuns, s.listener.m.taskRunId))
  }

  lemma StepKeepsIdling(cfg: Config, s: State, s': State, r: DagRunId)
    requires Inv(cfg, s) && Next(cfg, s, s') && !HasOpenAttempt(s, r) && Idling(s, r)
    ensures Idling(s', r)
  {
    hide Inv, Apply, Enabled, Attempts, NoneRunning, HasOpenAttempt, KeepsFinished, Terminal;
    NoOpenAttempt(cfg, s, r);
    StepStaysAway(cfg, s, s', r);
    var step :| Enabled(cfg, s, step) && s' == Apply(cfg, s, step);
    Footprint(cfg, s, step);
    if !Elsewhere(s'.listener, r) {
      StepKeepsFinished(cfg, s, step);
      if step.Receive? {
        AskedIsClosed(cfg, s, step, r);
      } else {
        GetRunStays(cfg, s, step);
        FinishedTerminal(s, s', s.listener.m.taskRunId);
      }
    }
  }

  lemma FinishedTerminal(s: State, s': State, q: TaskRunId)
    requires KeepsFinished(s, s') && Terminal(s.taskRuns, q)
    ensures Terminal(s'.taskRuns, q)
  {
  }

  /** Only receiving leads to GetRun. */
  lemma GetRunStays(cfg: Config, s: State, step: Step)
    requires Enabled(cfg, s, step) && !step.Receive? && Apply(cfg, s, step).listener.GetRun?
    ensures Apply(cfg, s, step).listener == s.listener
  {
    hide DerivedStatus, FanOutIds, FreshIds, IsPendingList, PumpCheckState, PumpCountState, PumpSaveRunState, PumpSaveTaskState,
         PumpGetDagState, PumpSaveDagState, PumpPublishState, PlanStartState, PlanSaveState;
    Footprint(cfg, s, step);
  }

  lemma AskedIsClosed(cfg: Config, s: State, step: Step, r: DagRunId)
    requires Inv(cfg, s) && Enabled(cfg, s, step) && step.Receive? && !HasOpenAttempt(s, r)
    ensures var s' := Apply(cfg, s, step);
            s'.listener == Listener.GetRun(step.m) && (step.m.dagRunId == r ==> Terminal(s'.taskRuns, step.m.taskRunId))
  {
    hide TasksOk, DagRunsOk, RunsOk, PlansOk, MembersOk, Shape, ShapesOk, NumbersOk, OrderOk, CacheOk,
         CacheCovers, MessageOk, DagReadOk, FanOutOk, QueueOk, AttemptOk, ListenerOk;
    assert RequestOk(s.tasks, s.taskRuns, step.rt);
    var q := step.rt.taskRunId;
    assert !OpenAttempt(s, r, q);
    if !s.taskRuns[q].status.IsTerminal() {
      OpenAttemptRuns(cfg, s, q);
    }
  }

  /** Until the run has an open attempt, its stored Success stays. */
  lemma {:induction false} PathUntilOpen(cfg: Config, path: seq<State>, i: nat, r: DagRunId)
    requires Continues(cfg, path) && Reachable(cfg, path[0]) && i < |path| && StoredSuccess(path[0], r) && Idling(path[0], r)
    requires forall j :: 0 <= j < i ==> !HasOpenAttempt(path[j], r)
    ensures Reachable(cfg, path[i]) && StoredSuccess(path[i], r) && Idling(path[i], r)
  {
    hide Reachable, Apply, Enabled, Inv, HasOpenAttempt, Idling;
    if i > 0 {
      PathUntilOpen(cfg, path, i - 1, r);
      var s := path[i - 1];
      assert Next(cfg, path[i - 1], path[i - 1 + 1]);
      var step :| Enabled(cfg, s, step) && path[i] == Apply(cfg, s, step);
      ReachableInv(cfg, s);
      StepKeepsIdling(cfg, s, path[i], r);
      IdlingIsAway(s, r);
      AwayDoesNotWrite(cfg, s, step, r);
      FinalStatusStays(cfg, s, step, r);
      Extend(cfg, s, step);
    }
  }

  lemma IdlingIsAway(s: State, r: DagRunId)
    requires Idling(s, r)
    ensures Away(s.listener, r)
  {
  }

  /** An open attempt of the run makes its Success late. */
  lemma OpenIsLate(cfg: Config, s: State, r: DagRunId)
    requires Reachable(cfg, s) && StoredSuccess(s, r) && Elsewhere(s.listener, r) && HasOpenAttempt(s, r)
    ensures Late(s, r)
  {
    hide Reachable, Inv, DerivedStatus;
    var q :| OpenAttempt(s, r, q);
    var k := s.taskRuns[q].taskId;
    if s.tasks[k].status.Success? {
      SuccessIsClosed(cfg, s, q);
    }
    ReachableInv(cfg, s);
    NoneSkipped(cfg, s);
    NotDone(s.tasks, k, r);
    StoredStatusAgrees(cfg, s, r);
  }

  lemma NoneSkipped(cfg: Config, s: State)
    requires Inv(cfg, s)
    ensures forall k :: k in s.tasks ==> !s.tasks[k].status.Skipped? && !s.tasks[k].status.Ready?
  {
    hide TasksOk, DagRunsOk, RunsOk, PlansOk, MembersOk, Shape, ShapesOk, NumbersOk, OrderOk, CacheOk, QueueOk,
         CacheCovers, DagReadOk, FanOutOk, AttemptOk, ListenerOk, RequestsOk, MessageOk;
    NothingSkipped(cfg, s);
  }

  /** From a first open attempt on, the Success can be taken back. */
  lemma OpenReverts(cfg: Config, s0: State, s: State, r: DagRunId)
    requires Reachable(cfg, s0) && Leads(cfg, s0, s) && StoredSuccess(s, r) && Idling(s, r) && HasOpenAttempt(s, r)
    ensures CanRevert(cfg, s0, r)
  {
    hide Reachable, Leads, Enabled, Apply, Late, CanBeListed, OpenAttempt;
    LeadsReachable(cfg, s0, s);
    var s1 := s;
    if !Elsewhere(s.listener, r) {
      ListenSteps(cfg, s);
      LeadsOn(cfg, s0, s, ListenGetRun);
      s1 := ListenGetRunState(s);
      SameAttempts(s, s1, r);
      LeadsReachable(cfg, s0, s1);
    }
    OpenIsLate(cfg, s1, r);
    var s2 := FinishResult(cfg, s0, s1, r);
    var s3 := FinishRound(cfg, s0, s2, r);
    ListedCanRevert(cfg, s0, s3, r);
  }

  lemma SameAttempts(s: State, s': State, r: DagRunId)
    requires HasOpenAttempt(s, r) && s'.taskRuns == s.taskRuns && s'.tasks == s.tasks
    ensures HasOpenAttempt(s', r)
  {
    var q :| OpenAttempt(s, r, q);
    assert OpenAttempt(s', r, q);
  }

  lemma FirstOpen(path: seq<State>, r: DagRunId, i: nat) returns (j: nat)
    requires i < |path| && HasOpenAttempt(path[i], r)
    ensures j <= i && HasOpenAttempt(path[j], r) && forall x :: 0 <= x < j ==> !HasOpenAttempt(path[x], r)
  {
    hide HasOpenAttempt;
    j := i;
    if x: nat :| x < i && HasOpenAttempt(path[x], r) {
      j := FirstOpen(path, r, x);
    }
  }

  lemma PathLeads(cfg: Config, path: seq<State>, i: nat)
    requires Continues(cfg, path) && i < |path|
    ensures Leads(cfg, path[0], path[i])
  {
    hide Next;
    var front := path[..i + 1];
    forall j | 0 <= j < |front| - 1 ensures Next(cfg, front[j], front[j + 1]) {
      assert front[j] == path[j] && front[j + 1] == path[j + 1];
    }
    assert Continues(cfg, front);
  }

  /** With the listener elsewhere, a stored Success can be taken back exactly when the run can get an open attempt, under any
      batch limit. */
  lemma OpeningDecides(cfg: Config, s: State, r: DagRunId)
    requires Reachable(cfg, s) && StoredSuccess(s, r) && Elsewhere(s.listener, r)
    ensures CanRevert(cfg, s, r) <==> CanOpen(cfg, s, r)
  {
    hide Reachable, Next, HasOpenAttempt;
    if s' :| Leads(cfg, s, s') && HasOpenAttempt(s', r) {
      var path :| Continues(cfg, path) && path[0] == s && path[|path| - 1] == s';
      var j := FirstOpen(path, r, |path| - 1);
      PathUntilOpen(cfg, path, j, r);
      PathLeads(cfg, path, j);
      OpenReverts(cfg, s, path[j], r);
    }
    if s' :| Leads(cfg, s, s') && r in s'.dagRuns && !s'.dagRuns[r].status.Success? {
      var path :| Continues(cfg, path) && path[0] == s && path[|path| - 1] == s';
      if i: nat :| i < |path| && HasOpenAttempt(path[i], r) {
        PathLeads(cfg, path, i);
      } else {
        PathUntilOpen(cfg, path, |path| - 1, r);
      }
    }
  }

  /** In every reachable state, a stored Success can still be taken back in some continuation only if a task of the run is not
      Success and not about to be, or more tasks are to come, or a refresh is about to write; and then it can, unless the run is
      crowded out of the batches. With the listener elsewhere, it can exactly when the run can get an open attempt. */
  lemma SuccessCanRevert(cfg: Config, s: State, r: DagRunId)
    requires Reachable(cfg, s) && StoredSuccess(s, r)
    ensures CanRevert(cfg, s, r) ==> Unfinished(cfg, s, r)
    ensures NeverCrowdedOut(cfg, s, r) && Unfinished(cfg, s, r) ==> CanRevert(cfg, s, r)
    ensures Elsewhere(s.listener, r) ==> (CanRevert(cfg, s, r) <==> CanOpen(cfg, s, r))
  {
    hide Reachable, Leads, Unfinished, NeverCrowdedOut, CanOpen;
    LeadsHere(cfg, s);
    if Elsewhere(s.listener, r) {
      OpeningDecides(cfg, s, r);
    }
    if !Unfinished(cfg, s, r) {
      if s' :| Leads(cfg, s, s') && r in s'.dagRuns && !s'.dagRuns[r].status.Success? {
        FinishedSuccessStays(cfg, s, s', r);
      }
    } else if NeverCrowdedOut(cfg, s, r) {
      if Elsewhere(s.listener, r) {
        UnfinishedCanRevert(cfg, s, s, r);
      } else {
        var s' := FinishOwnResult(cfg, s, s, r);
        if s'.dagRuns[r].status.Success? {
          UnfinishedCanRevert(cfg, s, s', r);
        }
      }
    }
  }

  lemma UnlimitedSuccessCanRevert(cfg: Config, s: State, r: DagRunId)
    requires Reachable(cfg, s) && StoredSuccess(s, r) && cfg.maxBatch.None?
    ensures CanRevert(cfg, s, r) <==> Unfinished(cfg, s, r)
  {
    hide Reachable, Unfinished, NeverCrowdedOut, CanRevert;
    UnlimitedIsNeverCrowdedOut(cfg, s, r);
    SuccessCanRevert(cfg, s, r);
  }
}
