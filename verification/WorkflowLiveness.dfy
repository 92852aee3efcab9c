/** Under fairness every planned run ends: it is stored as Success or Failed and stays so. */
module WorkflowLiveness {
  import opened WorkflowTypes
  import opened WorkflowMachine
  import opened WorkflowInvariant
  import opened WorkflowSteps
  import opened WorkflowSafety
  import opened WorkflowTermination
  import opened WorkflowStatus
  import opened WorkflowProgress

  // ----- every open attempt is asked for -----

  ghost predicate SentFor(sent: set<ReadyTask>, q: TaskRunId) {
    exists rt :: rt in sent && rt.taskRunId == q
  }

  ghost predicate ReadyFor(ready: seq<ReadyTask>, q: TaskRunId) {
    exists rt :: rt in ready && rt.taskRunId == q
  }

  /** The request of a Running attempt was published, or waits for publishing, or the pump is still dispatching it. */
  ghost predicate PublishedOk(taskRuns: Runs, sent: set<ReadyTask>, pump: Pump) {
    && (pump.pc.Idle? ==> pump.ready == [])
    && (forall q :: q in taskRuns && taskRuns[q].status.Running? ==>
          SentFor(sent, q) || ReadyFor(pump.ready, q) || Marking(pump.pc, q))
  }

  lemma StepKeepsPublished(cfg: Config, s: State, step: Step)
    requires Inv(cfg, s) && Enabled(cfg, s, step) && PublishedOk(s.taskRuns, s.sent, s.pump)
    ensures var s' := Apply(cfg, s, step); PublishedOk(s'.taskRuns, s'.sent, s'.pump)
  {
    hide TasksOk, DagRunsOk, RunsOk, PlansOk, MembersOk, Shape, ShapesOk, NumbersOk, OrderOk, CacheOk,
         CacheCovers, RequestsOk, MessageOk, DagReadOk, FanOutOk, Apply, Enabled, PublishedOk, QueueOk, AttemptOk, ListenerOk;
    Footprint(cfg, s, step);
    match step
    case PumpPublish => PublishKeepsPublished(cfg, s);
    case PumpGetDag => MarkKeepsPublished(cfg, s, step);
    case PumpSaveDag => MarkKeepsPublished(cfg, s, step);
    case ListenSaveRun => CloseKeepsPublished(cfg, s);
    case _ =>
      if step.IsPump() {
        PumpKeepsPublished(cfg, s, step);
      }
  }

  lemma PublishKeepsPublished(cfg: Config, s: State)
    requires PublishedOk(s.taskRuns, s.sent, s.pump) && Enabled(cfg, s, PumpPublish)
    ensures var s' := Apply(cfg, s, PumpPublish); PublishedOk(s'.taskRuns, s'.sent, s'.pump)
  {
    var s' := Apply(cfg, s, PumpPublish);
    forall q | q in s.taskRuns && s.taskRuns[q].status.Running? ensures SentFor(s'.sent, q) || ReadyFor(s'.pump.ready, q) {
      if SentFor(s.sent, q) {
        var rt :| rt in s.sent && rt.taskRunId == q;
        assert rt in s'.sent;
      } else {
        var rt :| rt in s.pump.ready && rt.taskRunId == q;
        assert rt == s.pump.ready[0] || rt in s.pump.ready[1..];
        assert rt in s'.sent || rt in s'.pump.ready;
      }
    }
  }

  lemma MarkKeepsPublished(cfg: Config, s: State, step: Step)
    requires PublishedOk(s.taskRuns, s.sent, s.pump) && Enabled(cfg, s, step) && (step.PumpGetDag? || step.PumpSaveDag?)
    ensures var s' := Apply(cfg, s, step); PublishedOk(s'.taskRuns, s'.sent, s'.pump)
  {
    var s' := Apply(cfg, s, step);
    if s'.pump.pc.Check? {
      var last := s'.pump.ready[|s.pump.ready|];
      assert s'.pump.ready == s.pump.ready + [last] && last.taskRunId == s.pump.pc.run.id;
      forall q | ReadyFor(s.pump.ready, q) || Marking(s.pump.pc, q) ensures ReadyFor(s'.pump.ready, q) {
        if Marking(s.pump.pc, q) {
          assert last in s'.pump.ready;
        } else {
          var rt :| rt in s.pump.ready && rt.taskRunId == q;
          assert rt in s'.pump.ready;
        }
      }
    }
  }

  lemma CloseKeepsPublished(cfg: Config, s: State)
    requires PublishedOk(s.taskRuns, s.sent, s.pump) && ListenerOk(cfg, s.tasks, s.taskRuns, s.listener)
    requires Enabled(cfg, s, ListenSaveRun)
    ensures var s' := Apply(cfg, s, ListenSaveRun); PublishedOk(s'.taskRuns, s'.sent, s'.pump)
  {
    hide SentFor, ReadyFor;
  }

  lemma PumpKeepsPublished(cfg: Config, s: State, step: Step)
    requires PublishedOk(s.taskRuns, s.sent, s.pump) && Enabled(cfg, s, step)
    requires step.PumpList? || step.PumpCheck? || step.PumpCount? || step.PumpSaveRun? || step.PumpSaveTask?
    ensures var s' := Apply(cfg, s, step); PublishedOk(s'.taskRuns, s'.sent, s'.pump)
  {
    hide SentFor, ReadyFor, IsPendingList, IsReady, SiblingsUsed;
  }

  lemma {:induction false} ExecutionKeepsPublished(cfg: Config, states: seq<State>, i: nat)
    requires IsExecution(cfg, states) && i < |states|
    ensures PublishedOk(states[i].taskRuns, states[i].sent, states[i].pump)
  {
    hide Inv, Enabled, Apply;
    if i > 0 {
      hide PublishedOk;
      ExecutionKeepsPublished(cfg, states, i - 1);
      ExecutionKeepsInv(cfg, states, i - 1);
      assert Next(cfg, states[i - 1], states[i - 1 + 1]);
      var step :| Enabled(cfg, states[i - 1], step) && states[i] == Apply(cfg, states[i - 1], step);
      StepKeepsPublished(cfg, states[i - 1], step);
    }
  }

  /** Between rounds, the request of every Running attempt has been published. */
  lemma PublishedBetweenRounds(cfg: Config, s: State, q: TaskRunId) returns (rt: ReadyTask)
    requires Reachable(cfg, s) && s.pump.pc.Idle? && q in s.taskRuns && s.taskRuns[q].status.Running?
    ensures rt in s.sent && rt.taskRunId == q && rt.taskId == s.taskRuns[q].taskId
    ensures rt.taskId in s.tasks && rt.dagRunId == s.tasks[rt.taskId].dagRunId && rt.kind == s.tasks[rt.taskId].kind
  {
    hide Next, TasksOk, DagRunsOk, RunsOk, PlansOk, MembersOk, Shape, ShapesOk, NumbersOk, OrderOk, CacheOk,
         CacheCovers, MessageOk, DagReadOk, FanOutOk, QueueOk, AttemptOk, ListenerOk;
    var states :| IsExecution(cfg, states) && states[|states| - 1] == s;
    ExecutionKeepsPublished(cfg, states, |states| - 1);
    hide Reachable;
    ReachableInv(cfg, s);
    rt :| rt in s.sent && rt.taskRunId == q;
    assert RequestOk(s.tasks, s.taskRuns, rt);
  }

  // ----- fair executions -----

  /** Pump rounds keep completing. */
  ghost predicate RoundIn(trace: nat -> State, a: nat, b: nat) {
    a + 1 < b && trace(a).pump.pc.Idle? && trace(a + 1).pump.pc.Check? && trace(b).pump.pc.Publish?
  }

  ghost predicate RoundAfter(trace: nat -> State, n: nat) {
    exists a, b :: n <= a && RoundIn(trace, a, b)
  }

  ghost predicate RoundsComplete(trace: nat -> State) { forall n: nat :: RoundAfter(trace, n) }

  predicate Receives(l: Listener, rt: ReadyTask) { l.GetRun? && l.m.taskRunId == rt.taskRunId }

  /** Every published request is answered: some result of it reaches the listener at some time. */
  ghost predicate RequestsAnswered(trace: nat -> State) {
    forall n: nat, rt :: rt in trace(n).sent ==> exists m: nat :: Receives(trace(m).listener, rt)
  }

  /** The listener finishes with every result. */
  ghost predicate IdleAfter(trace: nat -> State, n: nat) {
    exists m :: n <= m && trace(m).listener.Idle?
  }

  ghost predicate ResultsHandled(trace: nat -> State) { forall n: nat :: IdleAfter(trace, n) }

  ghost predicate Fair(trace: nat -> State) {
    RoundsComplete(trace) && RequestsAnswered(trace) && ResultsHandled(trace)
  }

  ghost function Prefix(trace: nat -> State, n: nat): (states: seq<State>)
    ensures |states| == n + 1 && forall i :: 0 <= i <= n ==> states[i] == trace(i)
  {
    seq(n + 1, i requires i >= 0 => trace(i))
  }

  lemma TraceReachable(cfg: Config, trace: nat -> State, n: nat)
    requires IsInfiniteExecution(cfg, trace)
    ensures IsExecution(cfg, Prefix(trace, n)) && Reachable(cfg, trace(n))
  {
    hide Next, Prefix;
    var states := Prefix(trace, n);
    forall i | 0 <= i < |states| - 1 ensures Next(cfg, states[i], states[i + 1]) {
      assert Next(cfg, trace(i), trace(i + 1));
    }
    assert IsExecution(cfg, states) && states[|states| - 1] == trace(n);
  }

  // ----- answered attempts are closed -----

  ghost predicate Terminal(taskRuns: Runs, q: TaskRunId) { q in taskRuns && taskRuns[q].status.IsTerminal() }

  /** The listener has received a result of attempt q and not yet closed it. */
  predicate Handling(l: Listener, q: TaskRunId) { (l.GetRun? || l.SaveRun?) && l.m.taskRunId == q }

  lemma StepHandles(cfg: Config, s: State, s': State, q: TaskRunId)
    requires Inv(cfg, s) && Next(cfg, s, s') && (Handling(s.listener, q) || Terminal(s.taskRuns, q))
    ensures Handling(s'.listener, q) || Terminal(s'.taskRuns, q)
  {
    hide TasksOk, DagRunsOk, RunsOk, PlansOk, MembersOk, Shape, ShapesOk, NumbersOk, OrderOk, CacheOk, QueueOk,
         CacheCovers, DagReadOk, FanOutOk, Apply, Enabled, AttemptOk, ListenerOk, RequestsOk, MessageOk;
    var step :| Enabled(cfg, s, step) && s' == Apply(cfg, s, step);
    Footprint(cfg, s, step);
    match step
    case PumpSaveRun => NewAttemptIsNew(cfg, s);
    case ListenGetRun => GetRunHandles(cfg, s, q);
    case ListenSaveRun => SaveRunHandles(cfg, s, q);
    case _ => OtherStepHandles(cfg, s, step, q);
  }

  lemma NewAttemptIsNew(cfg: Config, s: State)
    requires AttemptOk(s.taskRuns, s.sent, s.pump.pc, s.pump.queue) && Enabled(cfg, s, PumpSaveRun)
    ensures var s' := Apply(cfg, s, PumpSaveRun);
            s'.listener == s.listener && forall q :: q in s.taskRuns ==> q in s'.taskRuns && s'.taskRuns[q] == s.taskRuns[q]
  {
  }

  lemma GetRunHandles(cfg: Config, s: State, q: TaskRunId)
    requires Enabled(cfg, s, ListenGetRun) && MessageOk(s.sent, s.listener)
    requires RequestsOk(s.tasks, s.taskRuns, s.sent, s.pump.ready) && AttemptOk(s.taskRuns, s.sent, s.pump.pc, s.pump.queue)
    requires Handling(s.listener, q) || Terminal(s.taskRuns, q)
    ensures var s' := Apply(cfg, s, ListenGetRun); Handling(s'.listener, q) || Terminal(s'.taskRuns, q)
  {
    hide MessageOk, RequestsOk, AttemptOk;
    HandledAttempt(s);
  }

  lemma SaveRunHandles(cfg: Config, s: State, q: TaskRunId)
    requires Enabled(cfg, s, ListenSaveRun) && ListenerOk(cfg, s.tasks, s.taskRuns, s.listener)
    requires RunsOk(s.tasks, s.taskRuns) && (Handling(s.listener, q) || Terminal(s.taskRuns, q))
    ensures Terminal(Apply(cfg, s, ListenSaveRun).taskRuns, q)
  {
  }

  lemma OtherStepHandles(cfg: Config, s: State, step: Step, q: TaskRunId)
    requires Enabled(cfg, s, step) && !step.PumpSaveRun? && !step.ListenGetRun? && !step.ListenSaveRun?
    requires Handling(s.listener, q) || Terminal(s.taskRuns, q)
    ensures var s' := Apply(cfg, s, step); Handling(s'.listener, q) || Terminal(s'.taskRuns, q)
  {
    hide Apply;
    Footprint(cfg, s, step);
  }

  lemma {:induction false} HandledLater(cfg: Config, trace: nat -> State, q: TaskRunId, m: nat, n: nat)
    requires IsInfiniteExecution(cfg, trace) && m <= n && Handling(trace(m).listener, q)
    ensures Handling(trace(n).listener, q) || Terminal(trace(n).taskRuns, q)
    decreases n - m
  {
    hide Inv, Next, Handling, Terminal;
    if m < n {
      HandledLater(cfg, trace, q, m, n - 1);
      TraceInv(cfg, trace, n - 1);
      assert Next(cfg, trace(n - 1), trace(n - 1 + 1));
      StepHandles(cfg, trace(n - 1), trace(n), q);
    }
  }

  // ----- a settled run has no open attempt -----

  ghost predicate NoneRunning(s: State, r: DagRunId) {
    forall q :: q in Attempts(s, r) ==> !Attempts(s, r)[q].status.Running?
  }

  lemma AttemptOf(cfg: Config, s: State, q: TaskRunId)
    requires Inv(cfg, s) && q in s.taskRuns
    ensures s.taskRuns[q].taskId in s.tasks
    ensures forall r :: q in Attempts(s, r) <==> s.tasks[s.taskRuns[q].taskId].dagRunId == r
    ensures forall r :: q in Attempts(s, r) ==> Attempts(s, r)[q] == s.taskRuns[q]
  {
    hide DagRunsOk, PlansOk, MembersOk, Shape, ShapesOk, NumbersOk, OrderOk, CacheOk, QueueOk,
         CacheCovers, DagReadOk, FanOutOk, AttemptOk, ListenerOk, RequestsOk, MessageOk;
  }

  /** Once a run has settled, none of its attempts is Running: its request would be published, answered and closed. */
  lemma SettledNoneRunning(cfg: Config, trace: nat -> State, r: DagRunId, n: nat)
    requires IsInfiniteExecution(cfg, trace) && Fair(trace) && SettledFrom(trace, r, n)
    ensures NoneRunning(trace(n), r)
  {
    hide Inv, Next, Attempts, RoundsComplete, RequestsAnswered, ResultsHandled;
    forall q | q in Attempts(trace(n), r) ensures !Attempts(trace(n), r)[q].status.Running? {
      if Attempts(trace(n), r)[q].status.Running? {
        var a := NextIdlePump(trace, n);
        TraceInv(cfg, trace, a);
        assert Attempts(trace(a), r) == Attempts(trace(n), r);
        AttemptIn(cfg, trace(a), q, r);
        TraceReachable(cfg, trace, a);
        var rt := PublishedBetweenRounds(cfg, trace(a), q);
        var x := Answered(trace, a, rt);
        var y := NextIdleListener(trace, if x < a then a else x);
        HandledLater(cfg, trace, q, x, y);
        TraceInv(cfg, trace, y);
        assert Attempts(trace(y), r) == Attempts(trace(n), r);
        AttemptIn(cfg, trace(y), q, r);
      }
    }
  }

  lemma AttemptIn(cfg: Config, s: State, q: TaskRunId, r: DagRunId)
    requires Inv(cfg, s) && q in Attempts(s, r)
    ensures q in s.taskRuns && Attempts(s, r)[q] == s.taskRuns[q]
  {
    hide Inv;
  }

  lemma NextIdlePump(trace: nat -> State, n: nat) returns (a: nat)
    requires RoundsComplete(trace)
    ensures n <= a && trace(a).pump.pc.Idle?
  {
    assert RoundAfter(trace, n);
    var a', b :| n <= a' && RoundIn(trace, a', b);
    a := a';
  }

  lemma Answered(trace: nat -> State, n: nat, rt: ReadyTask) returns (m: nat)
    requires RequestsAnswered(trace) && rt in trace(n).sent
    ensures Receives(trace(m).listener, rt)
  {
    m :| Receives(trace(m).listener, rt);
  }

  lemma NextIdleListener(trace: nat -> State, n: nat) returns (m: nat)
    requires ResultsHandled(trace)
    ensures n <= m && trace(m).listener.Idle?
  {
    assert IdleAfter(trace, n);
    m :| n <= m && trace(m).listener.Idle?;
  }

  // ----- the listener leaves a settled run alone -----

  /** The listener is not at work on run r; it may have received a result of a closed attempt. */
  predicate Away(l: Listener, r: DagRunId) { l.Idle? || l.GetRun? || l.m.dagRunId != r }

  lemma StepStaysAway(cfg: Config, s: State, s': State, r: DagRunId)
    requires Inv(cfg, s) && Next(cfg, s, s') && NoneRunning(s, r) && Away(s.listener, r)
    ensures Away(s'.listener, r)
  {
    hide TasksOk, DagRunsOk, PlansOk, MembersOk, Shape, NumbersOk, OrderOk, CacheOk, QueueOk, Attempts,
         CacheCovers, DagReadOk, FanOutOk, Apply, Enabled, AttemptOk, ListenerOk, RequestsOk, MessageOk, RunsOk, ShapesOk;
    var step :| Enabled(cfg, s, step) && s' == Apply(cfg, s, step);
    Footprint(cfg, s, step);
    if step.ListenGetRun? {
      StaysAwayGetRun(cfg, s, r);
    } else {
      ListenerMovesOn(cfg, s, step);
    }
  }

  lemma StaysAwayGetRun(cfg: Config, s: State, r: DagRunId)
    requires Inv(cfg, s) && Enabled(cfg, s, ListenGetRun) && NoneRunning(s, r)
    ensures Away(Apply(cfg, s, ListenGetRun).listener, r)
  {
    hide TasksOk, DagRunsOk, PlansOk, MembersOk, Shape, NumbersOk, OrderOk, CacheOk, QueueOk, Attempts,
         CacheCovers, DagReadOk, FanOutOk, AttemptOk, ListenerOk, RequestsOk, MessageOk, RunsOk, ShapesOk;
    var q := s.listener.m.taskRunId;
    HandledAttempt(s);
    AttemptOf(cfg, s, q);
    assert q in Attempts(s, s.listener.m.dagRunId);
    if !s.taskRuns[q].status.IsTerminal() {
      OpenAttemptRuns(cfg, s, q);
    }
  }

  /** A step of the listener past GetRun goes on with the same result or ends with it. */
  lemma ListenerMovesOn(cfg: Config, s: State, step: Step)
    requires Enabled(cfg, s, step) && !step.ListenGetRun?
    ensures var l := Apply(cfg, s, step).listener;
            l == s.listener || l.Idle? || l.GetRun? || (!s.listener.Idle? && !s.listener.GetRun? && l.m == s.listener.m)
  {
    hide PlanStartState, PlanSaveState, PumpCheckState, PumpCountState, PumpSaveRunState, PumpSaveTaskState, PumpGetDagState,
         PumpSaveDagState, PumpPublishState, DerivedStatus, FanOutIds, FreshIds, Answers;
    Footprint(cfg, s, step);
  }

  lemma {:induction false} StaysAway(cfg: Config, trace: nat -> State, r: DagRunId, m: nat, n: nat)
    requires IsInfiniteExecution(cfg, trace) && Fair(trace) && SettledFrom(trace, r, m)
    requires m <= n && Away(trace(m).listener, r)
    ensures Away(trace(n).listener, r)
    decreases n - m
  {
    hide Inv, Next, Fair, NoneRunning, Away, Attempts;
    if m < n {
      StaysAway(cfg, trace, r, m, n - 1);
      TraceInv(cfg, trace, n - 1);
      assert Next(cfg, trace(n - 1), trace(n - 1 + 1));
      SettledLater(trace, r, m, n - 1);
      SettledNoneRunning(cfg, trace, r, n - 1);
      StepStaysAway(cfg, trace(n - 1), trace(n), r);
    }
  }

  lemma SettledLater(trace: nat -> State, r: DagRunId, m: nat, n: nat)
    requires SettledFrom(trace, r, m) && m <= n
    ensures SettledFrom(trace, r, n)
  {
    hide Attempts;
  }

  // ----- the last round -----

  /** With no attempt Running and the listener away, no task of the run is Running. */
  lemma NoTaskRunning(cfg: Config, s: State, r: DagRunId)
    requires Reachable(cfg, s) && NoneRunning(s, r) && Away(s.listener, r) && s.pump.pc.Idle?
    ensures forall k :: k in s.tasks && s.tasks[k].dagRunId == r ==> !s.tasks[k].status.Running?
  {
    hide TasksOk, DagRunsOk, PlansOk, MembersOk, Shape, NumbersOk, OrderOk, CacheOk, QueueOk, Attempts, Reachable,
         CacheCovers, DagReadOk, FanOutOk, AttemptOk, RequestsOk, MessageOk, ListenerOk, RunsOk, ShapesOk, AllFailed;
    ReachableInv(cfg, s);
    forall k | k in s.tasks && s.tasks[k].dagRunId == r ensures !s.tasks[k].status.Running? {
      if s.tasks[k].status.Running? {
        if !s.listener.Idle? {
          HandledAttempt(s);
        }
        StatusTellsAttempts(cfg, s, k);
        var q :| q in RunsOf(s.taskRuns, k) && s.taskRuns[q].status.Running?;
        NotRunning(cfg, s, q, r);
      }
    }
  }

  lemma NotRunning(cfg: Config, s: State, q: TaskRunId, r: DagRunId)
    requires Inv(cfg, s) && NoneRunning(s, r) && q in s.taskRuns && s.taskRuns[q].taskId in s.tasks
    requires s.tasks[s.taskRuns[q].taskId].dagRunId == r
    ensures !s.taskRuns[q].status.Running?
  {
    hide Inv, Attempts;
    AttemptOf(cfg, s, q);
    assert q in Attempts(s, r);
  }

  lemma DispatchAddsAttempt(cfg: Config, s: State, s': State, r: DagRunId)
    requires Inv(cfg, s) && Inv(cfg, s') && Next(cfg, s, s') && Dispatches(s, s', r)
    ensures Attempts(s', r) != Attempts(s, r)
  {
    hide TasksOk, DagRunsOk, PlansOk, MembersOk, Shape, NumbersOk, OrderOk, CacheOk, Attempts,
         CacheCovers, DagReadOk, FanOutOk, AttemptOk, RequestsOk, MessageOk, ListenerOk, RunsOk, ShapesOk, Apply, Enabled;
    var q := s.pump.pc.run.id;
    var step :| Enabled(cfg, s, step) && s' == Apply(cfg, s, step);
    Footprint(cfg, s, step);
    assert step.PumpSaveRun? || step.ListenSaveRun?;
    assert s'.tasks == s.tasks;
    HeadIsStored(s);
    AttemptOf(cfg, s', q);
    assert q in Attempts(s', r);
    if q in Attempts(s, r) {
      AttemptIn(cfg, s, q, r);
    }
  }

  /** The round that starts at time a lists no ready task of the stalled run r. */
  ghost predicate Unlisted(trace: nat -> State, a: nat, r: DagRunId) {
    Stalled(trace(a), r) && !ListsReady(trace(a).tasks, r, trace(a + 1).pump.queue)
  }

  /** A round after the run has settled dispatches nothing of it, so the run is finished or was not listed. */
  lemma SettledNotRunning(cfg: Config, trace: nat -> State, r: DagRunId, n: nat, a: nat, b: nat)
    requires IsInfiniteExecution(cfg, trace) && SettledFrom(trace, r, n) && n <= a && RoundIn(trace, a, b) && !Unlisted(trace, a, r)
    requires forall k :: k in trace(a).tasks && trace(a).tasks[k].dagRunId == r ==> !trace(a).tasks[k].status.Running?
    ensures !DerivedStatus(trace(a).tasks, r).Running?
  {
    hide Inv, Next, Attempts, DerivedStatus, Dispatches, RoundIn, ListsReady;
    if DerivedStatus(trace(a).tasks, r).Running? {
      var x := DispatchInRound(cfg, trace, r, a, b);
      TraceInv(cfg, trace, x);
      TraceInv(cfg, trace, x + 1);
      assert Next(cfg, trace(x), trace(x + 1));
      assert Attempts(trace(x), r) == Attempts(trace(n), r) && Attempts(trace(x + 1), r) == Attempts(trace(n), r);
      DispatchAddsAttempt(cfg, trace(x), trace(x + 1), r);
    }
  }

  lemma RoundStates(trace: nat -> State, a: nat, b: nat)
    requires RoundIn(trace, a, b)
    ensures a + 1 < b && trace(a).pump.pc.Idle? && trace(a + 1).pump.pc.Check? && trace(b).pump.pc.Publish?
  {
  }

  lemma DispatchInRound(cfg: Config, trace: nat -> State, r: DagRunId, a: nat, b: nat) returns (x: nat)
    requires IsInfiniteExecution(cfg, trace) && RoundIn(trace, a, b) && Stalled(trace(a), r)
    requires ListsReady(trace(a).tasks, r, trace(a + 1).pump.queue)
    ensures a < x < b && Dispatches(trace(x), trace(x + 1), r)
  {
    hide Next, Stalled, Dispatches, Reachable, IsExecution, IsInfiniteExecution, Prefix, RoundIn, ListsReady;
    TraceReachable(cfg, trace, b);
    RoundStates(trace, a, b);
    x := ListedRunIsDispatched(cfg, Prefix(trace, b), a, b, r);
  }

  /** A run whose plan is saved and whose derived status is final is stored with that status, unless its refresh is to come. */
  lemma FinishedIsStored(cfg: Config, s: State, r: DagRunId)
    requires Reachable(cfg, s) && r in s.plans && s.plans[r].saved == |s.plans[r].tasks| && s.pump.pc.Idle?
    requires !Window(s.listener, r) && Away(s.listener, r) && !DerivedStatus(s.tasks, r).Running?
    ensures r in s.dagRuns && (s.dagRuns[r].status.Success? || s.dagRuns[r].status.Failed?) && r !in s.late
  {
    hide TasksOk, PlansOk, MembersOk, Shape, NumbersOk, OrderOk, CacheOk, QueueOk, Reachable, ShapesOk,
         CacheCovers, DagReadOk, FanOutOk, AttemptOk, RequestsOk, MessageOk, ListenerOk, RunsOk, DerivedStatus;
    ReachableInv(cfg, s);
    StoredStatusAgrees(cfg, s, r);
    DerivedIsFailed(s.tasks, r);
    if s.dagRuns[r].status.Created? {
      PlanIsOk(s, r);
      UntouchedIsPending(cfg, s, r, s.plans[r].tasks[0].id);
    }
  }

  lemma UntouchedIsPending(cfg: Config, s: State, r: DagRunId, k: TaskId)
    requires Reachable(cfg, s) && s.pump.pc.Idle? && Away(s.listener, r)
    requires forall q :: q in s.taskRuns && s.taskRuns[q].taskId in s.tasks ==> s.tasks[s.taskRuns[q].taskId].dagRunId != r
    requires k in s.tasks && s.tasks[k].dagRunId == r
    ensures DerivedStatus(s.tasks, r).Running?
  {
    hide TasksOk, DagRunsOk, PlansOk, MembersOk, Shape, NumbersOk, OrderOk, CacheOk, QueueOk, Reachable,
         CacheCovers, DagReadOk, FanOutOk, AttemptOk, RequestsOk, MessageOk, ListenerOk, RunsOk, ShapesOk, AllFailed;
    ReachableInv(cfg, s);
    if !s.listener.Idle? {
      HandledAttempt(s);
    }
    forall x | x in s.tasks && s.tasks[x].dagRunId == r ensures s.tasks[x].status.Pending? {
      assert RunsOf(s.taskRuns, x) == {};
      StatusTellsAttempts(cfg, s, x);
    }
  }

  // ----- every planned run ends -----

  /** From time m on the run is stored as Success, or from time m on it is stored as Failed, and its tasks say so. */
  ghost predicate EndedFrom(trace: nat -> State, r: DagRunId, m: nat) {
    && r in trace(m).dagRuns && (trace(m).dagRuns[r].status.Success? || trace(m).dagRuns[r].status.Failed?)
    && forall n :: m <= n ==>
         r in trace(n).dagRuns && trace(n).dagRuns[r].status == trace(m).dagRuns[r].status == DerivedStatus(trace(n).tasks, r)
  }

  lemma {:induction false} PlanStaysSaved(cfg: Config, trace: nat -> State, r: DagRunId, i: nat, n: nat)
    requires IsInfiniteExecution(cfg, trace) && i <= n && r in trace(i).plans && trace(i).plans[r].saved == |trace(i).plans[r].tasks|
    ensures r in trace(n).plans && trace(n).plans[r].saved == |trace(n).plans[r].tasks|
    decreases n - i
  {
    hide Apply, Enabled;
    if i < n {
      PlanStaysSaved(cfg, trace, r, i, n - 1);
      assert Next(cfg, trace(n - 1), trace(n - 1 + 1));
      var step :| Enabled(cfg, trace(n - 1), step) && trace(n) == Apply(cfg, trace(n - 1), step);
      SavedPlanStays(cfg, trace(n - 1), step, r);
    }
  }

  lemma SavedPlanStays(cfg: Config, s: State, step: Step, r: DagRunId)
    requires Enabled(cfg, s, step) && r in s.plans && s.plans[r].saved == |s.plans[r].tasks|
    ensures r in Apply(cfg, s, step).plans && Apply(cfg, s, step).plans[r] == s.plans[r]
  {
    hide FreshIds, PlannedTasks, IsPendingList, Answers, FanOutIds;
    if !step.PlanStart? && !step.PlanSave? {
      Footprint(cfg, s, step);
    }
  }

  lemma {:induction false} StatusStays(cfg: Config, trace: nat -> State, r: DagRunId, m: nat, n: nat)
    requires IsInfiniteExecution(cfg, trace) && m <= n && r in trace(m).dagRuns
    requires trace(m).dagRuns[r].status.Success? || trace(m).dagRuns[r].status.Failed?
    requires forall j :: m <= j ==> Away(trace(j).listener, r)
    ensures r in trace(n).dagRuns && trace(n).dagRuns[r].status == trace(m).dagRuns[r].status
    decreases n - m
  {
    hide Apply, Enabled, Reachable;
    if m < n {
      StatusStays(cfg, trace, r, m, n - 1);
      assert Next(cfg, trace(n - 1), trace(n - 1 + 1));
      var step :| Enabled(cfg, trace(n - 1), step) && trace(n) == Apply(cfg, trace(n - 1), step);
      TraceReachable(cfg, trace, n - 1);
      assert Away(trace(n - 1).listener, r);
      AwayDoesNotWrite(cfg, trace(n - 1), step, r);
      FinalStatusStays(cfg, trace(n - 1), step, r);
    }
  }

  lemma AwayDoesNotWrite(cfg: Config, s: State, step: Step, r: DagRunId)
    requires Enabled(cfg, s, step) && Away(s.listener, r)
    ensures !(step.ListenSaveDag? && s.listener.m.dagRunId == r)
  {
    hide FreshIds, IsPendingList, Answers, FanOutIds;
  }

  /** From some time on every round starts with run r stalled and lists no ready task of it. */
  ghost predicate StarvedFrom(trace: nat -> State, r: DagRunId, n: nat) {
    forall a, b :: n <= a && RoundIn(trace, a, b) ==> Unlisted(trace, a, r)
  }

  ghost predicate Starved(trace: nat -> State, r: DagRunId) { exists n: nat :: StarvedFrom(trace, r, n) }

  /** If pump rounds keep completing, every published request is eventually answered and the listener finishes with every
      result, then a run whose plan was saved is eventually stored as Success or Failed for good, unless it is starved. */
  lemma PlannedRunsEnd(cfg: Config, trace: nat -> State, r: DagRunId, i: nat)
    requires IsInfiniteExecution(cfg, trace) && Fair(trace)
    requires r in trace(i).plans && trace(i).plans[r].saved == |trace(i).plans[r].tasks|
    ensures (exists m :: i <= m && EndedFrom(trace, r, m)) <==> !Starved(trace, r)
  {
    hide EndedFrom, StarvedFrom, IsInfiniteExecution, Fair;
    if !Starved(trace, r) {
      var m := EndOfListed(cfg, trace, r, i);
    }
    if m :| i <= m && EndedFrom(trace, r, m) {
      if n: nat :| StarvedFrom(trace, r, n) {
        EndedIsNotStarved(trace, r, m, n);
      }
    }
  }

  lemma EndedIsNotStarved(trace: nat -> State, r: DagRunId, m: nat, n: nat)
    requires Fair(trace) && EndedFrom(trace, r, m)
    ensures !StarvedFrom(trace, r, n)
  {
    hide DerivedStatus, ListsReady, RequestsAnswered, ResultsHandled, RoundsComplete, RoundIn;
    var a, b := NextRound(trace, if m < n then n else m);
    assert trace(a).dagRuns[r].status == DerivedStatus(trace(a).tasks, r);
    assert !Unlisted(trace, a, r);
  }

  lemma ListedRound(trace: nat -> State, r: DagRunId, n: nat) returns (a: nat, b: nat)
    requires !Starved(trace, r)
    ensures n <= a && RoundIn(trace, a, b) && !Unlisted(trace, a, r)
  {
    assert !StarvedFrom(trace, r, n);
    var a', b' :| n <= a' && RoundIn(trace, a', b') && !Unlisted(trace, a', r);
    a, b := a', b';
  }

  lemma EndOfListed(cfg: Config, trace: nat -> State, r: DagRunId, i: nat) returns (m: nat)
    requires IsInfiniteExecution(cfg, trace) && Fair(trace) && !Starved(trace, r)
    requires r in trace(i).plans && trace(i).plans[r].saved == |trace(i).plans[r].tasks|
    ensures i <= m && EndedFrom(trace, r, m)
  {
    hide Inv, Next, Attempts, RoundIn, RoundsComplete, RequestsAnswered, ResultsHandled, Away, Reachable, NoneRunning, DerivedStatus,
      Unlisted;
    RunsSettle(cfg, trace, r, i);
    var n :| i <= n && SettledFrom(trace, r, n);
    var x := NextIdleListener(trace, n);
    SettledLater(trace, r, n, x);
    IdleIsAway(trace(x).listener, r);
    var a, b := ListedRound(trace, r, x);
    forall j | a <= j ensures Away(trace(j).listener, r) {
      StaysAway(cfg, trace, r, x, j);
    }
    EndAtRound(cfg, trace, r, i, x, a, b);
    forall j | a <= j
      ensures r in trace(j).dagRuns && trace(j).dagRuns[r].status == trace(a).dagRuns[r].status == DerivedStatus(trace(j).tasks, r)
    {
      StatusStays(cfg, trace, r, a, j);
      PlanStaysSaved(cfg, trace, r, i, a);
      NotLateStays(cfg, trace, r, a, j);
      StoredIsDerived(cfg, trace, r, j);
    }
    m := a;
    assert EndedFrom(trace, r, a);
  }

  lemma StoredIsDerived(cfg: Config, trace: nat -> State, r: DagRunId, j: nat)
    requires IsInfiniteExecution(cfg, trace) && Away(trace(j).listener, r) && r in trace(j).dagRuns && r !in trace(j).late
    requires trace(j).dagRuns[r].status.Success? || trace(j).dagRuns[r].status.Failed?
    ensures trace(j).dagRuns[r].status == DerivedStatus(trace(j).tasks, r)
  {
    hide Next, Reachable, DerivedStatus;
    TraceReachable(cfg, trace, j);
    AwayIsOutside(trace(j).listener, r);
    StoredStatusAgrees(cfg, trace(j), r);
  }

  /** A run whose plan is saved does not become late. */
  lemma {:induction false} NotLateStays(cfg: Config, trace: nat -> State, r: DagRunId, m: nat, n: nat)
    requires IsInfiniteExecution(cfg, trace) && m <= n && r !in trace(m).late
    requires r in trace(m).plans && trace(m).plans[r].saved == |trace(m).plans[r].tasks|
    ensures r !in trace(n).late
    decreases n - m
  {
    hide Apply, Enabled;
    if m < n {
      NotLateStays(cfg, trace, r, m, n - 1);
      PlanStaysSaved(cfg, trace, r, m, n - 1);
      assert Next(cfg, trace(n - 1), trace(n - 1 + 1));
      var step :| Enabled(cfg, trace(n - 1), step) && trace(n) == Apply(cfg, trace(n - 1), step);
      SavedIsNotLate(cfg, trace(n - 1), step, r);
    }
  }

  lemma SavedIsNotLate(cfg: Config, s: State, step: Step, r: DagRunId)
    requires Enabled(cfg, s, step) && r !in s.late && r in s.plans && s.plans[r].saved == |s.plans[r].tasks|
    ensures r !in Apply(cfg, s, step).late
  {
    hide FreshIds, IsPendingList, Answers, FanOutIds, DerivedStatus;
    if !step.PlanSave? && !step.ListenTasks? {
      Footprint(cfg, s, step);
    }
  }

  /** Without a batch limit no run is starved. */
  lemma UnlimitedIsNotStarved(cfg: Config, trace: nat -> State, r: DagRunId)
    requires IsInfiniteExecution(cfg, trace) && RoundsComplete(trace) && cfg.maxBatch.None?
    ensures !Starved(trace, r)
  {
    hide RoundIn, Unlisted, RoundsComplete, IsInfiniteExecution;
    if n: nat :| StarvedFrom(trace, r, n) {
      var a, b := NextRound(trace, n);
      UnlimitedIsListed(cfg, trace, a, b, r);
    }
  }

  lemma UnlimitedIsListed(cfg: Config, trace: nat -> State, a: nat, b: nat, r: DagRunId)
    requires IsInfiniteExecution(cfg, trace) && RoundIn(trace, a, b) && cfg.maxBatch.None?
    ensures !Unlisted(trace, a, r)
  {
    hide Next, RoundIn, Stalled, ListsReady, Reachable;
    RoundStates(trace, a, b);
    TraceReachable(cfg, trace, a);
    assert Next(cfg, trace(a), trace(a + 1));
    if Stalled(trace(a), r) {
      UnlimitedListsReady(cfg, trace(a), trace(a + 1), r);
    }
  }

  /** So every planned run ends. */
  lemma UnlimitedRunsEnd(cfg: Config, trace: nat -> State, r: DagRunId, i: nat)
    requires IsInfiniteExecution(cfg, trace) && Fair(trace) && cfg.maxBatch.None?
    requires r in trace(i).plans && trace(i).plans[r].saved == |trace(i).plans[r].tasks|
    ensures exists m :: i <= m && EndedFrom(trace, r, m)
  {
    hide EndedFrom, Starved, IsInfiniteExecution;
    UnlimitedIsNotStarved(cfg, trace, r);
    PlannedRunsEnd(cfg, trace, r, i);
  }

  lemma IdleIsAway(l: Listener, r: DagRunId)
    requires l.Idle?
    ensures Away(l, r)
  {
  }

  lemma NextRound(trace: nat -> State, n: nat) returns (a: nat, b: nat)
    requires RoundsComplete(trace)
    ensures n <= a && RoundIn(trace, a, b)
  {
    assert RoundAfter(trace, n);
    var a', b' :| n <= a' && RoundIn(trace, a', b');
    a, b := a', b';
  }

  lemma EndAtRound(cfg: Config, trace: nat -> State, r: DagRunId, i: nat, n: nat, a: nat, b: nat)
    requires IsInfiniteExecution(cfg, trace) && Fair(trace) && !Unlisted(trace, a, r)
    requires r in trace(i).plans && trace(i).plans[r].saved == |trace(i).plans[r].tasks|
    requires i <= n <= a && SettledFrom(trace, r, n) && Away(trace(a).listener, r) && RoundIn(trace, a, b)
    ensures r in trace(a).dagRuns && (trace(a).dagRuns[r].status.Success? || trace(a).dagRuns[r].status.Failed?)
    ensures r !in trace(a).late
  {
    hide Inv, Next, Attempts, RoundIn, RoundsComplete, RequestsAnswered, ResultsHandled, Away, Reachable, NoneRunning, DerivedStatus,
      Unlisted;
    RoundStates(trace, a, b);
    TraceReachable(cfg, trace, a);
    SettledLater(trace, r, n, a);
    SettledNoneRunning(cfg, trace, r, a);
    NoTaskRunning(cfg, trace(a), r);
    SettledNotRunning(cfg, trace, r, n, a, b);
    PlanStaysSaved(cfg, trace, r, i, a);
    AwayIsOutside(trace(a).listener, r);
    FinishedIsStored(cfg, trace(a), r);
  }

  lemma AwayIsOutside(l: Listener, r: DagRunId)
    requires Away(l, r)
    ensures !Window(l, r)
  {
  }
}
