/**
  How many runs a batch limit can serve. Under a limit of n a run is listed exactly when fewer than n Pending rows are older than
  one of its ready tasks; without failures only indexers that wait for fanned-out embedders can be in the way, one a run.
*/
module WorkflowThreshold {
  import opened Wrappers
  import opened WorkflowTypes
  import opened WorkflowMachine
  import opened WorkflowInvariant
  import opened WorkflowSteps
  import opened WorkflowSafety
  import opened WorkflowTermination
  import opened WorkflowStatus
  import opened WorkflowProgress
  import opened WorkflowLiveness
  import opened WorkflowFinality
  import opened WorkflowContinuation
  import opened WorkflowCrowding
  import opened WorkflowStarvation

  // ----- what a batch lists -----

  /** So a round lists a ready task of the run exactly when one has fewer than n Pending rows below it. */
  lemma ListsReadyIff(cfg: Config, s: State, queue: seq<Task>, r: DagRunId, n: nat)
    requires Reachable(cfg, s) && cfg.maxBatch == Some(n) && IsPendingList(cfg, s.tasks, queue)
    ensures ListsReady(s.tasks, r, queue) <==> exists t :: ReadyNow(s.tasks, r, t) && |PendingBelow(s.tasks, t)| < n
  {
    hide Reachable, IsPendingList, Inv, PendingBelow, TasksOk, IsReady, Siblings;
    ReachableInv(cfg, s);
    InvParts(cfg, s);
    forall t | ReadyNow(s.tasks, r, t) ensures s.tasks[t] in queue <==> |PendingBelow(s.tasks, t)| < n {
      ListedIff(cfg, s, queue, t, n);
    }
  }

  // ----- what can be in the way of the oldest ready task -----

  ghost predicate HasPendingFanned(tasks: Tasks, plans: Plans, r: DagRunId) {
    exists k :: IsFanned(tasks, plans, r, k) && tasks[k].status.Pending?
  }

  /** The runs without a failed task but with a Pending one that their chunker's result added. */
  ghost function FannedRuns(s: State): set<DagRunId> {
    set r | r in s.plans && NoneFailed(s.tasks, r) && HasPendingFanned(s.tasks, s.plans, r)
  }

  /** The Pending rows of runs with a failed task. */
  ghost function DeadRows(tasks: Tasks): set<TaskId> {
    set k | k in tasks && tasks[k].status.Pending? && !NoneFailed(tasks, tasks[k].dagRunId)
  }

  /** How many rows can be in the way: an indexer a run that waits for fanned-out tasks, and what failed runs left behind. */
  ghost function InTheWay(s: State): nat { |FannedRuns(s)| + |DeadRows(s.tasks)| }

  /** Ids ascend within every plan. */
  ghost predicate StagesInOrder(plans: Plans) { forall r :: r in plans ==> Ascending(plans[r].tasks) }

  /** Nothing of the run is being worked on, and none has failed. */
  ghost predicate Waiting(tasks: Tasks, r: DagRunId) {
    forall k :: k in tasks && tasks[k].dagRunId == r ==> tasks[k].status.Pending? || tasks[k].status.Success?
  }

  /** No ready task of a run without failed tasks is older than t. */
  ghost predicate OldestReady(tasks: Tasks, t: TaskId) {
    forall r, k :: ReadyNow(tasks, r, k) && NoneFailed(tasks, r) ==> t <= k
  }

  lemma {:induction false} IndexersAreFew(plans: Plans, runs: set<DagRunId>)
    ensures |Indexers(plans, runs)| <= |runs|
    decreases runs
  {
    if runs == {} {
      assert Indexers(plans, runs) == {};
    } else {
      var r :| r in runs;
      IndexersAreFew(plans, runs - {r});
      assert Indexers(plans, runs) == Indexers(plans, runs - {r}) + {IndexerId(plans, r)};
    }
  }

  /** Only indexers that wait for fanned-out tasks, one a run, and rows of failed runs are older than the oldest ready task. */
  lemma FewBelowOldest(cfg: Config, s: State, t: TaskId)
    requires Reachable(cfg, s) && StagesInOrder(s.plans) && OldestReady(s.tasks, t)
    requires forall k :: k in PendingBelow(s.tasks, t) && NoneFailed(s.tasks, s.tasks[k].dagRunId) ==>
               Waiting(s.tasks, s.tasks[k].dagRunId)
    ensures |PendingBelow(s.tasks, t)| <= InTheWay(s)
  {
    hide Reachable, StagesInOrder, OldestReady, Waiting, IndexerId, NoneFailed, FannedRuns;
    var indexers, dead := Indexers(s.plans, FannedRuns(s)), DeadRows(s.tasks);
    forall k | k in PendingBelow(s.tasks, t) ensures k in indexers + dead {
      if k !in dead {
        BelowIsIndexer(cfg, s, t, k);
      }
    }
    IndexersAreFew(s.plans, FannedRuns(s));
    SubsetSize(PendingBelow(s.tasks, t), indexers + dead);
  }

  lemma BelowIsIndexer(cfg: Config, s: State, t: TaskId, k: TaskId)
    requires Reachable(cfg, s) && StagesInOrder(s.plans) && OldestReady(s.tasks, t)
    requires k in s.tasks && s.tasks[k].status.Pending? && k < t && Waiting(s.tasks, s.tasks[k].dagRunId)
    requires NoneFailed(s.tasks, s.tasks[k].dagRunId)
    ensures s.tasks[k].dagRunId in FannedRuns(s) && IndexerId(s.plans, s.tasks[k].dagRunId) == k
  {
    hide Reachable, StagesInOrder, IsPlanned, IsReady, Siblings, PlannedDone, Inv, IndexerId, FannedRuns, NoneFailed;
    var r := s.tasks[k].dagRunId;
    ReachableInv(cfg, s);
    KnownRow(cfg, s, k);
    var z := LowestPendingIsReady(s.tasks, r, k);
    assert t <= z;
    KnownRow(cfg, s, z);
    if !IsPlanned(s.plans, s.tasks[z]) {
      FannedWaits(cfg, s, r, k, z);
    } else if IsPlanned(s.plans, s.tasks[k]) {
      PlannedBefore(s, r, z, k);
    } else {
      BeforeFannedIsDone(cfg, s, r, z);
    }
  }

  lemma KnownRow(cfg: Config, s: State, k: TaskId)
    requires Inv(cfg, s) && k in s.tasks
    ensures var t := s.tasks[k];
            && t.id == k && t.dagRunId in s.plans && |s.plans[t.dagRunId].tasks| == 5
            && (IsPlanned(s.plans, t) || (t.kind == Embedder && PlannedDone(s.plans, s.tasks, t.dagRunId, 2)))
  {
    hide DagRunsOk, RunsOk, PlansOk, Shape, ShapesOk, NumbersOk, OrderOk, CacheOk, QueueOk, IsPlanned, PlannedDone,
         CacheCovers, DagReadOk, FanOutOk, AttemptOk, ListenerOk, RequestsOk, MessageOk;
    PlanIsOk(s, s.tasks[k].dagRunId);
  }

  /** Planned tasks of a run are in id order by stage. */
  lemma PlannedBefore(s: State, r: DagRunId, z: TaskId, k: TaskId)
    requires StagesInOrder(s.plans) && z in s.tasks && k in s.tasks && s.tasks[z].id == z && s.tasks[k].id == k
    requires s.tasks[z].dagRunId == s.tasks[k].dagRunId == r && IsPlanned(s.plans, s.tasks[z]) && IsPlanned(s.plans, s.tasks[k])
    requires Ordering(s.tasks[z].kind) < Ordering(s.tasks[k].kind)
    ensures z < k
  {
  }

  lemma FannedWaits(cfg: Config, s: State, r: DagRunId, k: TaskId, z: TaskId)
    requires Inv(cfg, s) && k in s.tasks && z in s.tasks && s.tasks[k].dagRunId == s.tasks[z].dagRunId == r
    requires NoneFailed(s.tasks, r) && !IsPlanned(s.plans, s.tasks[z])
    requires s.tasks[z].status.Pending? && Ordering(s.tasks[z].kind) < Ordering(s.tasks[k].kind)
    ensures r in FannedRuns(s) && IndexerId(s.plans, r) == k
  {
    hide Inv;
    KnownRow(cfg, s, k);
    KnownRow(cfg, s, z);
    assert IsFanned(s.tasks, s.plans, r, z);
  }

  /** A run whose chunker is done has its earlier stages done. */
  lemma BeforeFannedIsDone(cfg: Config, s: State, r: DagRunId, z: TaskId)
    requires Reachable(cfg, s) && PlannedDone(s.plans, s.tasks, r, 2) && z in s.tasks && s.tasks[z].dagRunId == r
    requires IsPlanned(s.plans, s.tasks[z]) && Ordering(s.tasks[z].kind) < 3
    ensures s.tasks[z].status.Success?
  {
    hide DagRunsOk, RunsOk, MembersOk, Shape, ShapesOk, NumbersOk, CacheOk, Reachable, PlansOk,
         CacheCovers, RequestsOk, MessageOk, DagReadOk, FanOutOk, AllFailed;
    ReachableInv(cfg, s);
    PlanIsOk(s, r);
    StoredTask(s, z);
    var c := s.plans[r].tasks[2].id;
    if z != c {
      SuccessIsQuiet(cfg, s, c);
      StatusTellsAttempts(cfg, s, c);
      assert Started(s.taskRuns, s.pump, c);
      assert LowerDone(s.tasks, s.tasks[c]);
    }
  }

  // ----- ids through an execution -----

  lemma {:induction false} StagesStayInOrder(cfg: Config, trace: nat -> State, n: nat)
    requires IsInfiniteExecution(cfg, trace) && IdsInOrder(trace)
    ensures StagesInOrder(trace(n).plans)
  {
    hide Apply, Enabled, Ascending;
    if n > 0 {
      StagesStayInOrder(cfg, trace, n - 1);
      assert Next(cfg, trace(n - 1), trace(n - 1 + 1)) && InOrder(trace(n - 1), trace(n - 1 + 1));
      var step :| Enabled(cfg, trace(n - 1), step) && trace(n) == Apply(cfg, trace(n - 1), step);
      PlansKeepTasks(cfg, trace(n - 1), step);
    }
  }

  /** Every id is of a run that was planned. */
  ghost predicate IdsKnown(s: State) { forall k :: k in s.origins ==> s.origins[k].run in s.plans }

  /** Ids stay, and a new one is of a run that is being planned, or of the run whose result is being handled. */
  ghost predicate IdsGrow(s: State, s': State) {
    && (forall k :: k in s.origins ==> k in s'.origins && s'.origins[k] == s.origins[k])
    && (forall r :: r in s.plans ==> r in s'.plans)
    && (forall k :: k in s'.origins && k !in s.origins ==>
          || (s'.origins[k].run !in s.plans && s'.origins[k].run in s'.plans)
          || (s.listener.SaveTask? && s'.origins[k].run == s.listener.m.dagRunId))
  }

  lemma StepGrowsIds(cfg: Config, s: State, step: Step)
    requires Enabled(cfg, s, step)
    ensures IdsGrow(s, Apply(cfg, s, step))
  {
    hide Enabled, Apply;
    Footprint(cfg, s, step);
    if step.PlanStart? {
      PlanGrowsIds(cfg, s, step);
    } else if step.ListenSaveTask? {
      ResultGrowsIds(cfg, s, step);
    } else {
      PlansKeepTasks(cfg, s, step);
    }
  }

  lemma PlanGrowsIds(cfg: Config, s: State, step: Step)
    requires Enabled(cfg, s, step) && step.PlanStart?
    ensures IdsGrow(s, Apply(cfg, s, step))
  {
    hide PlannedTasks;
  }

  lemma ResultGrowsIds(cfg: Config, s: State, step: Step)
    requires Enabled(cfg, s, step) && step.ListenSaveTask?
    ensures IdsGrow(s, Apply(cfg, s, step))
  {
    hide AfterSaveTask, ParsedUuids, ChunkSets;
  }

  lemma TraceGrowsIds(cfg: Config, trace: nat -> State, n: nat)
    requires IsInfiniteExecution(cfg, trace)
    ensures IdsGrow(trace(n), trace(n + 1))
  {
    hide Apply, Enabled, IdsGrow;
    assert Next(cfg, trace(n), trace(n + 1));
    var step :| Enabled(cfg, trace(n), step) && trace(n + 1) == Apply(cfg, trace(n), step);
    StepGrowsIds(cfg, trace(n), step);
  }

  lemma {:induction false} IdsAreKnown(cfg: Config, trace: nat -> State, n: nat)
    requires IsInfiniteExecution(cfg, trace)
    ensures IdsKnown(trace(n))
  {
    hide Next, Inv;
    if n > 0 {
      IdsAreKnown(cfg, trace, n - 1);
      TraceGrowsIds(cfg, trace, n - 1);
      TraceInv(cfg, trace, n - 1);
      ResultIsKnown(cfg, trace(n - 1));
    }
  }

  lemma ResultIsKnown(cfg: Config, s: State)
    requires Inv(cfg, s)
    ensures s.listener.SaveTask? ==> s.listener.m.dagRunId in s.plans
  {
    hide DagRunsOk, RunsOk, PlansOk, MembersOk, Shape, ShapesOk, NumbersOk, OrderOk, CacheOk, QueueOk,
         CacheCovers, DagReadOk, FanOutOk, AttemptOk, ListenerOk, RequestsOk, MessageOk;
    if s.listener.SaveTask? {
      HandledAttempt(s);
    }
  }

  /** Ids that come later are larger; a planned run that the listener leaves alone gets none. */
  lemma {:induction false} LaterIds(cfg: Config, trace: nat -> State, i: nat, j: nat, r: DagRunId)
    requires IsInfiniteExecution(cfg, trace) && IdsInOrder(trace) && i <= j && r in trace(i).plans
    requires forall n :: i <= n ==> Away(trace(n).listener, r)
    ensures r in trace(j).plans && (forall k :: k in trace(i).origins ==> k in trace(j).origins && trace(j).origins[k] == trace(i).origins[k])
    ensures forall k, k' :: k in trace(i).origins && k' in trace(j).origins && k' !in trace(i).origins ==> k < k'
    ensures forall k' :: k' in trace(j).origins && k' !in trace(i).origins ==> trace(j).origins[k'].run != r
    decreases j - i
  {
    hide Next;
    if i < j {
      LaterIds(cfg, trace, i, j - 1, r);
      TraceGrowsIds(cfg, trace, j - 1);
      assert InOrder(trace(j - 1), trace(j - 1 + 1)) && Away(trace(j - 1).listener, r);
    }
  }

  // ----- a starved run would be served -----

  lemma {:induction false} AllSettle(cfg: Config, trace: nat -> State, runs: set<DagRunId>, i: nat) returns (n: nat)
    requires IsInfiniteExecution(cfg, trace) && forall r :: r in runs ==> r in trace(i).plans
    ensures i <= n && forall r :: r in runs ==> SettledFrom(trace, r, n)
    decreases runs
  {
    hide IsInfiniteExecution, SettledFrom;
    n := i;
    if runs != {} {
      var r :| r in runs;
      var others := AllSettle(cfg, trace, runs - {r}, i);
      RunsSettle(cfg, trace, r, i);
      var own :| i <= own && SettledFrom(trace, r, own);
      n := if own < others then others else own;
      SettledLater(trace, r, own, n);
      forall x | x in runs ensures SettledFrom(trace, x, n) {
        if x != r {
          SettledLater(trace, x, others, n);
        }
      }
    }
  }

  /** From time n on the runs have settled and the listener leaves them alone. */
  ghost predicate AtPeace(trace: nat -> State, runs: set<DagRunId>, n: nat) {
    && (forall r :: r in runs ==> SettledFrom(trace, r, n))
    && (forall r, j :: r in runs && n <= j ==> Away(trace(j).listener, r))
  }

  lemma PeaceComes(cfg: Config, trace: nat -> State, runs: set<DagRunId>, i: nat) returns (n: nat)
    requires IsInfiniteExecution(cfg, trace) && Fair(trace) && forall r :: r in runs ==> r in trace(i).plans
    ensures i <= n && AtPeace(trace, runs, n)
  {
    hide IsInfiniteExecution, SettledFrom, RoundsComplete, RequestsAnswered, ResultsHandled, Away;
    var m := AllSettle(cfg, trace, runs, i);
    n := NextIdleListener(trace, m);
    forall r | r in runs ensures SettledFrom(trace, r, n) {
      SettledLater(trace, r, m, n);
    }
    forall r, j | r in runs && n <= j ensures Away(trace(j).listener, r) {
      IdleIsAway(trace(n).listener, r);
      StaysAway(cfg, trace, r, n, j);
    }
  }

  /** Between rounds, a run at peace without failed tasks only waits. */
  lemma PeacefulWaits(cfg: Config, trace: nat -> State, runs: set<DagRunId>, n: nat, a: nat, r: DagRunId)
    requires IsInfiniteExecution(cfg, trace) && Fair(trace) && AtPeace(trace, runs, n) && n <= a && r in runs
    requires trace(a).pump.pc.Idle?
    ensures NoneFailed(trace(a).tasks, r) ==> Waiting(trace(a).tasks, r)
    ensures forall k :: k in trace(a).tasks && trace(a).tasks[k].dagRunId == r ==> !trace(a).tasks[k].status.Running?
  {
    hide IsInfiniteExecution, SettledFrom, Fair, Away, Reachable, NoneRunning, Inv;
    SettledLater(trace, r, n, a);
    SettledNoneRunning(cfg, trace, r, a);
    TraceReachable(cfg, trace, a);
    NoTaskRunning(cfg, trace(a), r);
    TraceInv(cfg, trace, a);
    NoneSkipped(cfg, trace(a));
  }

  lemma {:induction false} FindOldest(tasks: Tasks, r: DagRunId, k: TaskId) returns (r': DagRunId, t: TaskId)
    requires ReadyNow(tasks, r, k) && NoneFailed(tasks, r)
    ensures ReadyNow(tasks, r', t) && NoneFailed(tasks, r') && t <= k && OldestReady(tasks, t)
    decreases k
  {
    hide ReadyNow, NoneFailed;
    r', t := r, k;
    if r1: DagRunId, k1: TaskId :| ReadyNow(tasks, r1, k1) && NoneFailed(tasks, r1) && k1 < k {
      r', t := FindOldest(tasks, r1, k1);
    }
  }

  /** A row that is not younger than one of run r is of a run known at time i. */
  lemma OldRow(cfg: Config, trace: nat -> State, i: nat, a: nat, r: DagRunId, t: TaskId, k: TaskId)
    requires IsInfiniteExecution(cfg, trace) && IdsInOrder(trace) && i <= a && r in trace(i).plans
    requires forall n :: i <= n ==> Away(trace(n).listener, r)
    requires t in trace(a).tasks && trace(a).tasks[t].dagRunId == r && k in trace(a).tasks && k <= t
    ensures trace(a).tasks[k].dagRunId in trace(i).plans
  {
    hide IsInfiniteExecution, IdsInOrder, Away, Inv;
    LaterIds(cfg, trace, i, a, r);
    TraceInv(cfg, trace, a);
    RowIsKnown(cfg, trace(a), t);
    RowIsKnown(cfg, trace(a), k);
    IdsAreKnown(cfg, trace, i);
    assert t in trace(i).origins;
    assert k in trace(i).origins;
  }

  lemma RowIsKnown(cfg: Config, s: State, k: TaskId)
    requires Inv(cfg, s) && k in s.tasks
    ensures k in s.origins && s.origins[k].run == s.tasks[k].dagRunId
  {
    hide DagRunsOk, RunsOk, PlansOk, MembersOk, Shape, ShapesOk, NumbersOk, OrderOk, CacheOk, QueueOk,
         CacheCovers, DagReadOk, FanOutOk, AttemptOk, ListenerOk, RequestsOk, MessageOk;
  }

  /** A round that starts in a state at peace with few rows in the way lists the oldest ready task. */
  lemma OldestIsListed(cfg: Config, s: State, queue: seq<Task>, r: DagRunId, t: TaskId, n: nat)
    requires Reachable(cfg, s) && StagesInOrder(s.plans) && cfg.maxBatch == Some(n) && IsPendingList(cfg, s.tasks, queue)
    requires ReadyNow(s.tasks, r, t) && OldestReady(s.tasks, t) && InTheWay(s) < n
    requires forall k :: k in s.tasks && k <= t && NoneFailed(s.tasks, s.tasks[k].dagRunId) ==>
               Waiting(s.tasks, s.tasks[k].dagRunId)
    ensures ListsReady(s.tasks, r, queue)
  {
    hide Reachable, StagesInOrder, OldestReady, Waiting, InTheWay, ReadyNow, IsPendingList, NoneFailed;
    FewBelowOldest(cfg, s, t);
    ListsReadyIff(cfg, s, queue, r, n);
  }

  lemma PendingIsRunning(tasks: Tasks, r: DagRunId, t: TaskId)
    requires ReadyNow(tasks, r, t) && NoneFailed(tasks, r)
    ensures DerivedStatus(tasks, r).Running?
  {
  }

  /** After peace, a round that starts with few rows in the way does not find run r stalled. */
  lemma RoundFindsDone(cfg: Config, trace: nat -> State, n: nat, r: DagRunId, i: nat, m: nat, a: nat, b: nat)
    requires IsInfiniteExecution(cfg, trace) && Fair(trace) && IdsInOrder(trace) && cfg.maxBatch == Some(n)
    requires r in trace(i).plans && (forall j :: i <= j ==> Away(trace(j).listener, r))
    requires i <= m <= a && AtPeace(trace, trace(i).plans.Keys, m) && RoundIn(trace, a, b) && InTheWay(trace(a)) < n
    ensures !Stalled(trace(a), r)
  {
    hide IsInfiniteExecution, Fair, IdsInOrder, AtPeace, RoundIn, InTheWay, Away, Stalled, Reachable, ReadyNow, Next,
         OldestReady, Waiting, StagesInOrder, IsPendingList, NoneFailed, ListsReady, DerivedStatus;
    if Stalled(trace(a), r) {
      var s := trace(a);
      TraceReachable(cfg, trace, a);
      RoundStates(trace, a, b);
      var t0 := StalledRunHasReadyTask(cfg, s, r);
      ReadyIsStored(s.tasks, r, t0);
      StalledHasNoneFailed(s, r);
      var r1, t := FindOldest(s.tasks, r, t0);
      ReadyIsStored(s.tasks, r1, t);
      forall k | k in s.tasks && k <= t
        ensures s.tasks[k].dagRunId in trace(i).plans
        ensures NoneFailed(s.tasks, s.tasks[k].dagRunId) ==> Waiting(s.tasks, s.tasks[k].dagRunId)
      {
        OldRow(cfg, trace, i, a, r, t0, k);
        PeacefulWaits(cfg, trace, trace(i).plans.Keys, m, a, s.tasks[k].dagRunId);
      }
      StagesStayInOrder(cfg, trace, a);
      TraceNext(cfg, trace, a);
      RoundListing(cfg, s, trace(a + 1));
      OldestIsListed(cfg, s, trace(a + 1).pump.queue, r1, t, n);
      PeacefulWaits(cfg, trace, trace(i).plans.Keys, m, a, r1);
      PendingIsRunning(s.tasks, r1, t);
      PeaceSettles(trace, trace(i).plans.Keys, m, r1);
      SettledNotRunning(cfg, trace, r1, m, a, b);
    }
  }

  lemma StalledHasNoneFailed(s: State, r: DagRunId)
    requires Stalled(s, r)
    ensures NoneFailed(s.tasks, r)
  {
  }

  lemma TraceNext(cfg: Config, trace: nat -> State, n: nat)
    requires IsInfiniteExecution(cfg, trace)
    ensures Next(cfg, trace(n), trace(n + 1))
  {
    hide Next;
  }

  lemma ReadyIsStored(tasks: Tasks, r: DagRunId, t: TaskId)
    requires ReadyNow(tasks, r, t)
    ensures t in tasks && tasks[t].dagRunId == r
  {
  }

  lemma PeaceSettles(trace: nat -> State, runs: set<DagRunId>, n: nat, r: DagRunId)
    requires AtPeace(trace, runs, n) && r in runs
    ensures SettledFrom(trace, r, n)
  {
  }

  // ----- fewer rows in the way than the limit -----

  /** Again and again a round starts with fewer than n rows in the way. */
  ghost predicate HasRoomAfter(trace: nat -> State, n: nat, m: nat) {
    exists a, b :: m <= a && RoundIn(trace, a, b) && InTheWay(trace(a)) < n
  }

  ghost predicate HasRoom(trace: nat -> State, n: nat) { forall m: nat :: HasRoomAfter(trace, n, m) }

  /** Under a limit of n, every planned run of such an execution ends. */
  lemma RunsWithRoomEnd(cfg: Config, trace: nat -> State, n: nat, r: DagRunId, i: nat)
    requires FairlyPlanned(cfg, trace, r, i) && cfg.maxBatch == Some(n) && HasRoom(trace, n)
    ensures Ends(trace, r, i)
  {
    hide IsInfiniteExecution, Fair, IdsInOrder, HasRoom, EndedFrom, StarvedFrom;
    PlannedRunsEnd(cfg, trace, r, i);
    if m: nat :| StarvedFrom(trace, r, m) {
      NeverStarvedFrom(cfg, trace, n, r, i, m);
    }
  }

  lemma NeverStarvedFrom(cfg: Config, trace: nat -> State, n: nat, r: DagRunId, i: nat, m: nat)
    requires FairlyPlanned(cfg, trace, r, i) && cfg.maxBatch == Some(n) && HasRoom(trace, n)
    ensures !StarvedFrom(trace, r, m)
  {
    hide IsInfiniteExecution, Fair, IdsInOrder, AtPeace, RoundIn, InTheWay, Away, Stalled, ListsReady;
    PlanStaysSaved(cfg, trace, r, i, if m < i then i else m);
    var x := PeaceComes(cfg, trace, {r}, if m < i then i else m);
    PlanStaysSaved(cfg, trace, r, i, x);
    PeaceIsAway(trace, {r}, x, r);
    var y := PeaceComes(cfg, trace, trace(x).plans.Keys, x);
    assert HasRoomAfter(trace, n, y);
    var a, b :| y <= a && RoundIn(trace, a, b) && InTheWay(trace(a)) < n;
    RoundFindsDone(cfg, trace, n, r, x, y, a, b);
    assert !Unlisted(trace, a, r);
  }

  lemma PeaceIsAway(trace: nat -> State, runs: set<DagRunId>, n: nat, r: DagRunId)
    requires AtPeace(trace, runs, n) && r in runs
    ensures forall j :: n <= j ==> Away(trace(j).listener, r)
  {
  }

  // ----- how many runs a limit serves -----

  /** At most k runs are ever planned. */
  ghost predicate AtMostRuns(trace: nat -> State, k: nat) { forall n: nat :: |trace(n).plans.Keys| <= k }

  ghost predicate HealthyRunsEnd(cfg: Config, k: nat) {
    forall trace: nat -> State, r: DagRunId, i: nat ::
      FairlyPlanned(cfg, trace, r, i) && AllHealthy(cfg, trace) && AtMostRuns(trace, k) ==> Ends(trace, r, i)
  }

  /** Without failures nothing is dead. */
  lemma NoneDead(cfg: Config, trace: nat -> State, i: nat, n: nat)
    requires IsInfiniteExecution(cfg, trace) && (forall x :: NoFailures(trace, x, i)) && i <= n
    ensures DeadRows(trace(n).tasks) == {}
  {
    hide IsInfiniteExecution, NoFailures, NoneFailed;
    forall x ensures NoneFailed(trace(n).tasks, x) {
      NoneEverFailed(cfg, trace, x, i, n);
    }
  }

  lemma FewRunsHaveRoom(cfg: Config, trace: nat -> State, k: nat, n: nat)
    requires IsInfiniteExecution(cfg, trace) && RoundsComplete(trace) && AtMostRuns(trace, k) && k < n
    requires forall x :: NoFailures(trace, x, 0)
    ensures HasRoom(trace, n)
  {
    hide IsInfiniteExecution, RoundIn, HasPendingFanned, RoundsComplete, NoneFailed, DeadRows, NoFailures;
    forall m: nat ensures HasRoomAfter(trace, n, m) {
      var a, b := NextRound(trace, m);
      NoneDead(cfg, trace, 0, a);
      SubsetSize(FannedRuns(trace(a)), trace(a).plans.Keys);
      assert |trace(a).plans.Keys| <= k;
    }
  }

  /** With at most k runs planned, all of them end in every fair execution of successes if and only if there is no batch limit or
      it is larger than k. */
  lemma LimitServesFewer(cfg: Config, chunkSet: Option<string>, k: nat)
    requires k > 0 && IsMade(cfg, chunkSet)
    ensures HealthyRunsEnd(cfg, k) <==> cfg.maxBatch.None? || k < cfg.maxBatch.value
  {
    hide IsInfiniteExecution, EndedFrom, Starved, IdsInOrder, AllHealthy, AtMostRuns, RequestsAnswered, ResultsHandled, RoundsComplete,
         NoFailures, HasRoom;
    if cfg.maxBatch.None? || k < cfg.maxBatch.value {
      forall trace: nat -> State, r: DagRunId, i: nat | FairlyPlanned(cfg, trace, r, i) && AllHealthy(cfg, trace) && AtMostRuns(trace, k)
        ensures Ends(trace, r, i)
      {
        if cfg.maxBatch.None? {
          UnlimitedRunsEnd(cfg, trace, r, i);
        } else {
          forall x ensures NoFailures(trace, x, 0) {
            HealthyFansOut(cfg, trace, {}, x, 0);
          }
          FewRunsHaveRoom(cfg, trace, k, cfg.maxBatch.value);
          RunsWithRoomEnd(cfg, trace, cfg.maxBatch.value, r, i);
        }
      }
    } else {
      var trace, i := CrowdOf(cfg, chunkSet, k);
      PlannedRunsEnd(cfg, trace, 0, i);
      assert !Ends(trace, 0, i);
    }
  }

  /** An execution of k runs that starves one of them. */
  lemma CrowdOf(cfg: Config, chunkSet: Option<string>, k: nat) returns (trace: nat -> State, i: nat)
    requires k > 0 && IsMade(cfg, chunkSet) && cfg.maxBatch.Some? && cfg.maxBatch.value <= k
    ensures FairlyPlanned(cfg, trace, 0, i) && AllHealthy(cfg, trace) && AtMostRuns(trace, k) && Starved(trace, 0)
  {
    hide IsInfiniteExecution, Fair, IdsInOrder, PlannedTogether, AllHealthy, FanOutThroughout, NoFailures, Starved, RunsBelow;
    var runs := RunsBelow(k);
    trace, i := HealthyExecution(cfg, chunkSet, k);
    HealthyFansOut(cfg, trace, runs, 0, i);
    CrowdStarves(cfg, trace, runs, cfg.maxBatch.value, i, 0);
    RunIsSaved(trace(i), runs, 0);
    forall n: nat ensures |trace(n).plans.Keys| <= k {
      SubsetSize(trace(n).plans.Keys, runs);
    }
  }

  // ----- what a late run needs under a limit -----

  predicate NothingToFan(l: Listener) { l.FanOut? ==> l.rest == [] }

  lemma StepFansNothing(cfg: Config, s: State, step: Step)
    requires Inv(cfg, s) && Enabled(cfg, s, step) && NothingToFan(s.listener) && (s.listener.Idle? || !FansOut(cfg, s.listener.m))
    ensures NothingToFan(Apply(cfg, s, step).listener)
  {
    hide TasksOk, DagRunsOk, RunsOk, PlansOk, MembersOk, Shape, ShapesOk, NumbersOk, OrderOk, CacheOk, QueueOk,
         CacheCovers, DagReadOk, FanOutOk, AttemptOk, ListenerOk, RequestsOk, MessageOk, Apply, Enabled, FansOut;
    Footprint(cfg, s, step);
    if step.ListenSaveTask? {
      ResultIs(cfg, s, step);
    } else if step.ListenFanOut? {
      StepGuards(cfg, s, step);
      ListenSteps(cfg, s);
    } else if !step.IsPump() && !step.PlanStart? && !step.PlanSave? {
      ListenerOffFanOut(cfg, s, step);
    }
  }

  /** Without failures and fan-out no run gets a Pending fanned-out task. */
  lemma StepFansNoRun(cfg: Config, s: State, step: Step, r: DagRunId)
    requires Inv(cfg, s) && Enabled(cfg, s, step) && NothingToFan(s.listener) && (s.listener.Idle? || s.listener.m.Success?)
    requires r in FannedRuns(Apply(cfg, s, step))
    ensures r in FannedRuns(s)
  {
    hide DagRunsOk, RunsOk, PlansOk, MembersOk, Shape, ShapesOk, NumbersOk, OrderOk, CacheOk, QueueOk, PlannedDone,
         CacheCovers, DagReadOk, FanOutOk, AttemptOk, ListenerOk, RequestsOk, MessageOk, Apply, Enabled, IsPlanned, NoneFailed, KeepsFinished;
    var s' := Apply(cfg, s, step);
    var k :| IsFanned(s'.tasks, s'.plans, r, k) && s'.tasks[k].status.Pending?;
    PendingBefore(cfg, s, step, k);
    StepKeepsFinished(cfg, s, step);
    FailedStays(s, s', r);
    SamePlans(cfg, s, step, s.tasks[k]);
    assert IsFanned(s.tasks, s.plans, r, k);
  }

  lemma FailedStays(s: State, s': State, r: DagRunId)
    requires KeepsFinished(s, s') && NoneFailed(s'.tasks, r)
    ensures NoneFailed(s.tasks, r)
  {
  }

  lemma SamePlans(cfg: Config, s: State, step: Step, t: Task)
    requires Enabled(cfg, s, step) && t.dagRunId in s.plans
    ensures IsPlanned(Apply(cfg, s, step).plans, t) == IsPlanned(s.plans, t)
  {
    hide Apply, Enabled;
    PlansKeepTasks(cfg, s, step);
  }

  /** A Pending row that was not planned was there before. */
  lemma PendingBefore(cfg: Config, s: State, step: Step, k: TaskId)
    requires Inv(cfg, s) && Enabled(cfg, s, step) && NothingToFan(s.listener) && (s.listener.Idle? || s.listener.m.Success?)
    requires var s' := Apply(cfg, s, step); k in s'.tasks && s'.tasks[k].status.Pending? && !IsPlanned(s'.plans, s'.tasks[k])
    ensures k in s.tasks && s.tasks[k] == Apply(cfg, s, step).tasks[k]
  {
    hide TasksOk, DagRunsOk, RunsOk, PlansOk, MembersOk, Shape, ShapesOk, NumbersOk, OrderOk, CacheOk, QueueOk,
         CacheCovers, DagReadOk, FanOutOk, AttemptOk, ListenerOk, RequestsOk, MessageOk, Apply, Enabled;
    Footprint(cfg, s, step);
    match step
    case PlanSave(run) => SavedIsPlanned(cfg, s, run);
    case PumpSaveTask =>
      StepGuards(cfg, s, step);
      PumpSteps(cfg, s);
    case ListenSaveTask(_) => ResultIs(cfg, s, step);
    case ListenFanOut =>
      StepGuards(cfg, s, step);
      ListenSteps(cfg, s);
    case _ =>
  }

  lemma SavedIsPlanned(cfg: Config, s: State, run: DagRunId)
    requires Enabled(cfg, s, PlanSave(run)) && PlansOk(s.tasks, s.plans, s.origins)
    ensures var s', t := Apply(cfg, s, PlanSave(run)), s.plans[run].tasks[s.plans[run].saved];
            s'.tasks == s.tasks[t.id := t] && IsPlanned(s'.plans, t)
  {
    hide PlansOk;
    NextPlanned(s, run);
  }

  /** From time a on nothing is fanned out and nothing fails. */
  ghost predicate PlainFrom(cfg: Config, trace: nat -> State, a: nat) {
    && NothingToFan(trace(a).listener)
    && forall n :: a <= n && !trace(n).listener.Idle? ==> trace(n).listener.m.Success? && !FansOut(cfg, trace(n).listener.m)
  }

  lemma {:induction false} FannedRunsShrink(cfg: Config, trace: nat -> State, a: nat, n: nat)
    requires IsInfiniteExecution(cfg, trace) && PlainFrom(cfg, trace, a) && a <= n
    ensures FannedRuns(trace(n)) <= FannedRuns(trace(a)) && NothingToFan(trace(n).listener)
    decreases n
  {
    hide Inv, Enabled, Apply, FannedRuns, FansOut;
    if a < n {
      FannedRunsShrink(cfg, trace, a, n - 1);
      TraceInv(cfg, trace, n - 1);
      assert Next(cfg, trace(n - 1), trace(n - 1 + 1));
      var step :| Enabled(cfg, trace(n - 1), step) && trace(n) == Apply(cfg, trace(n - 1), step);
      StepFansNothing(cfg, trace(n - 1), step);
      forall r | r in FannedRuns(trace(n)) ensures r in FannedRuns(trace(n - 1)) {
        StepFansNoRun(cfg, trace(n - 1), step, r);
      }
    }
  }

  lemma PlainHasRoom(cfg: Config, trace: nat -> State, a: nat, n: nat)
    requires IsInfiniteExecution(cfg, trace) && RoundsComplete(trace) && PlainFrom(cfg, trace, a) && |FannedRuns(trace(a))| < n
    requires forall x :: NoFailures(trace, x, a)
    ensures HasRoom(trace, n)
  {
    hide IsInfiniteExecution, RoundIn, FannedRuns, RoundsComplete, PlainFrom, DeadRows, NoFailures;
    forall m: nat ensures HasRoomAfter(trace, n, m) {
      var x, y := NextRound(trace, if m < a then a else m);
      FannedRunsShrink(cfg, trace, a, x);
      NoneDead(cfg, trace, a, x);
      SubsetSize(FannedRuns(trace(x)), FannedRuns(trace(a)));
    }
  }

  lemma {:induction false} TraceLeads(cfg: Config, trace: nat -> State, a: nat, n: nat)
    requires IsInfiniteExecution(cfg, trace) && a <= n
    ensures Leads(cfg, trace(a), trace(n))
    decreases n
  {
    hide Leads, Enabled, Apply;
    if a == n {
      LeadsHere(cfg, trace(a));
    } else {
      TraceLeads(cfg, trace, a, n - 1);
      assert Next(cfg, trace(n - 1), trace(n - 1 + 1));
      var step :| Enabled(cfg, trace(n - 1), step) && trace(n) == Apply(cfg, trace(n - 1), step);
      LeadsOn(cfg, trace(a), trace(n - 1), step);
    }
  }

  /** A late run that never gets an open attempt stays late. */
  lemma {:induction false} LateForGood(cfg: Config, trace: nat -> State, r: DagRunId, a: nat, n: nat)
    requires IsInfiniteExecution(cfg, trace) && a <= n && r in trace(a).late && Idling(trace(a), r)
    requires forall j :: a <= j ==> !HasOpenAttempt(trace(j), r)
    ensures r in trace(n).late && Idling(trace(n), r)
    decreases n
  {
    hide Inv, Enabled, Apply, HasOpenAttempt, Idling;
    if a < n {
      LateForGood(cfg, trace, r, a, n - 1);
      TraceInv(cfg, trace, n - 1);
      assert Next(cfg, trace(n - 1), trace(n - 1 + 1));
      var step :| Enabled(cfg, trace(n - 1), step) && trace(n) == Apply(cfg, trace(n - 1), step);
      StepKeepsIdling(cfg, trace(n - 1), trace(n), r);
      IdlingIsAway(trace(n - 1), r);
      ListsOthers(cfg, trace(n - 1), step, r);
      ListingsKeepOthers(cfg, trace(n - 1), step, r);
    }
  }

  lemma ListsOthers(cfg: Config, s: State, step: Step, r: DagRunId)
    requires Enabled(cfg, s, step) && Away(s.listener, r)
    ensures step.ListenTasks? ==> s.listener.m.dagRunId != r
  {
    hide FreshIds, IsPendingList, Answers, FanOutIds;
  }

  /** If the run ended, its Success would agree with its tasks. */
  lemma LateDoesNotEnd(cfg: Config, trace: nat -> State, r: DagRunId, m: nat)
    requires IsInfiniteExecution(cfg, trace) && r in trace(m).late && Idling(trace(m), r)
    ensures !EndedFrom(trace, r, m)
  {
    hide IsInfiniteExecution, Reachable, DerivedStatus;
    if EndedFrom(trace, r, m) {
      assert trace(m).dagRuns[r].status == DerivedStatus(trace(m).tasks, r);
      TraceReachable(cfg, trace, m);
      IdlingIsAway(trace(m), r);
      AwayIsOutside(trace(m).listener, r);
      StoredStatusAgrees(cfg, trace(m), r);
    }
  }

  lemma PlainContinuation(cfg: Config, states: seq<State>, s: State) returns (trace: nat -> State)
    requires IsExecution(cfg, states + [s]) && s.listener.Idle?
    requires forall i :: 0 <= i < |states| ==> InOrder((states + [s])[i], (states + [s])[i + 1])
    ensures IsInfiniteExecution(cfg, trace) && Fair(trace) && IdsInOrder(trace) && PlainFrom(cfg, trace, |states|)
    ensures trace(|states|) == s
  {
    hide IsExecution, IsInfiniteExecution, Fair, InOrder, FansOut;
    var all := states + [s];
    trace := FairContinuation(cfg, None, states, s);
    forall n: nat ensures InOrder(trace(n), trace(n + 1)) {
      if n < |states| {
        assert trace(n) == all[n] && trace(n + 1) == all[n + 1];
      }
    }
    assert trace(|states|) == all[|states|];
    forall n | |states| <= n && !trace(n).listener.Idle?
      ensures trace(n).listener.m.Success? && !FansOut(cfg, trace(n).listener.m)
    {
      assert FromWorker(None, trace(n));
      var rt :| rt in trace(n).sent && trace(n).listener.m == SuccessOf(None, rt);
      SuccessAnswers(cfg, None, rt);
    }
  }

  /** Under a limit of n and time-ordered ids: between results, if no task has failed and fewer than n runs have a Pending
      fanned-out task, the Success of a late run whose plan is saved can be taken back. */
  lemma FewFannedCanRevert(cfg: Config, states: seq<State>, s: State, r: DagRunId, n: nat)
    requires IsExecution(cfg, states + [s]) && s.listener.Idle? && cfg.maxBatch == Some(n)
    requires forall i :: 0 <= i < |states| ==> InOrder((states + [s])[i], (states + [s])[i + 1])
    requires Late(s, r) && r in s.plans && s.plans[r].saved == |s.plans[r].tasks|
    requires (forall k :: k in s.tasks ==> !s.tasks[k].status.Failed?) && |FannedRuns(s)| < n
    ensures CanRevert(cfg, s, r)
  {
    hide IsExecution, IsInfiniteExecution, InOrder, RoundsComplete, RequestsAnswered, ResultsHandled, FannedRuns, EndedFrom, HasRoom,
         CanRevert, Reachable, HasOpenAttempt, Leads, FansOut, IdsInOrder;
    EndReachable(cfg, states, s);
    OpeningDecides(cfg, s, r);
    if !CanOpen(cfg, s, r) {
      var trace := PlainContinuation(cfg, states, s);
      var a := |states|;
      forall j | a <= j ensures !HasOpenAttempt(trace(j), r) {
        TraceLeads(cfg, trace, a, j);
      }
      forall x ensures NoFailures(trace, x, a) {
      }
      PlainHasRoom(cfg, trace, a, n);
      RunsWithRoomEnd(cfg, trace, n, r, a);
      var m :| a <= m && EndedFrom(trace, r, m);
      LateForGood(cfg, trace, r, a, m);
      LateDoesNotEnd(cfg, trace, r, m);
    }
  }
}
