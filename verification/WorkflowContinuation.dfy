/**
  Fair executions exist: from every reachable state the control plane can go on with complete rounds, every request answered by a
  success and every result handled, under time-ordered ids.
*/
module WorkflowContinuation {
  import opened Wrappers
  import opened WorkflowTypes
  import opened WorkflowMachine
  import opened WorkflowInvariant
  import opened WorkflowSteps
  import opened WorkflowTermination
  import opened WorkflowProgress
  import opened WorkflowLiveness
  import opened WorkflowFinality
  import Json

  // ----- a worker that succeeds -----

  /** The answer to a request: a chunker's lists the one chunk set it made, if it made one. */
  function SuccessOf(chunkSet: Option<string>, rt: ReadyTask): WorkerStatus {
    WorkerStatus.Success(rt.dagRunId, rt.taskId, rt.taskRunId,
      if rt.kind.Chunker? && chunkSet.Some?
      then Some(Json.Object([Json.Entry("chunk_set_ids", Json.Array([Json.String(chunkSet.value)]))])) else None)
  }

  /** The chunk set's id is a UUID. */
  predicate IsMade(cfg: Config, chunkSet: Option<string>) { chunkSet.Some? && cfg.parseUuid(chunkSet.value).Some? }

  lemma SuccessAnswers(cfg: Config, chunkSet: Option<string>, rt: ReadyTask)
    ensures Answers(SuccessOf(chunkSet, rt), rt)
    ensures rt.kind.Chunker? && IsMade(cfg, chunkSet) ==> FansOut(cfg, SuccessOf(chunkSet, rt))
    ensures chunkSet.None? ==> !FansOut(cfg, SuccessOf(chunkSet, rt))
  {
    if rt.kind.Chunker? && chunkSet.Some? {
      var list := [Json.String(chunkSet.value)];
      assert ChunkSets(SuccessOf(chunkSet, rt).output) == Some(list);
      if IsMade(cfg, chunkSet) {
        assert ParsedUuids(cfg, list) == [cfg.parseUuid(chunkSet.value).value] + ParsedUuids(cfg, list[1..]);
      }
    }
  }

  /** The result being handled is a success, a chunker's one that lists chunk sets. */
  ghost predicate Healthy(cfg: Config, s: State) {
    !s.listener.Idle? ==>
      && s.listener.m.Success?
      && (s.listener.m.taskId in s.tasks && s.tasks[s.listener.m.taskId].kind.Chunker? ==> FansOut(cfg, s.listener.m))
  }

  /** The result being handled is this worker's. */
  ghost predicate FromWorker(chunkSet: Option<string>, s: State) {
    !s.listener.Idle? ==> exists rt :: rt in s.sent && s.listener.m == SuccessOf(chunkSet, rt)
  }

  lemma WorkerIsHealthy(cfg: Config, chunkSet: Option<string>, s: State)
    requires Reachable(cfg, s) && FromWorker(chunkSet, s) && IsMade(cfg, chunkSet)
    ensures Healthy(cfg, s)
  {
    hide TasksOk, DagRunsOk, RunsOk, PlansOk, MembersOk, Shape, ShapesOk, NumbersOk, OrderOk, CacheOk, QueueOk, Reachable,
         CacheCovers, MessageOk, DagReadOk, FanOutOk, AttemptOk, ListenerOk, FansOut;
    ReachableInv(cfg, s);
    if !s.listener.Idle? {
      var rt :| rt in s.sent && s.listener.m == SuccessOf(chunkSet, rt);
      assert RequestOk(s.tasks, s.taskRuns, rt);
      SuccessAnswers(cfg, chunkSet, rt);
    }
  }

  // ----- whose turn it is -----

  predicate OfListener(step: Step) { !step.IsPump() && !step.PlanStart? && !step.PlanSave? && !step.Receive? }

  ghost predicate IsOpen(s: State, q: TaskRunId) { q in s.taskRuns && s.taskRuns[q].status.Running? }

  ghost predicate HasOpen(s: State) { exists q :: IsOpen(s, q) }

  /** The listener goes first, then the pump; between rounds an open attempt is answered, and if there is none a round starts. */
  ghost predicate Serves(cfg: Config, chunkSet: Option<string>, s: State, step: Step) {
    && Enabled(cfg, s, step) && InOrder(s, Apply(cfg, s, step))
    && if !s.listener.Idle? then OfListener(step) && ListenerAdvances(s.listener, Apply(cfg, s, step).listener)
       else if !s.pump.pc.Idle? then step.IsPump() && PumpAdvances(s.pump, Apply(cfg, s, step).pump)
       else if HasOpen(s) then step.Receive? && IsOpen(s, step.rt.taskRunId) && step.m == SuccessOf(chunkSet, step.rt)
       else step.PumpList?
  }

  lemma CanServe(cfg: Config, chunkSet: Option<string>, s: State) returns (step: Step)
    requires Reachable(cfg, s)
    ensures Serves(cfg, chunkSet, s, step)
  {
    hide Reachable, Enabled, Apply, InOrder, Inv, ListenerAdvances, PumpAdvances, Answers, SuccessOf, IsPendingList;
    ReachableInv(cfg, s);
    if !s.listener.Idle? {
      step := ListenerMoves(cfg, s);
    } else if !s.pump.pc.Idle? {
      InvParts(cfg, s);
      step := PumpMoves(cfg, s);
    } else if q :| IsOpen(s, q) {
      var rt := PublishedBetweenRounds(cfg, s, q);
      SuccessAnswers(cfg, chunkSet, rt);
      step := Receive(rt, SuccessOf(chunkSet, rt));
      var s' := ReceiveStep(cfg, s, rt, SuccessOf(chunkSet, rt));
      QuietIsInOrder(s, s');
    } else {
      InvParts(cfg, s);
      var queue := RoundCanStart(cfg, s);
      step := PumpList(queue);
      var s' := PumpListStep(cfg, s, queue);
      QuietIsInOrder(s, s');
    }
  }

  lemma InvParts(cfg: Config, s: State)
    requires Inv(cfg, s)
    ensures QueueOk(s.tasks, s.pump.pc, s.pump.queue) && TasksOk(s.tasks, s.plans, s.origins)
  {
  }

  ghost function Served(cfg: Config, chunkSet: Option<string>, s: State): State {
    if step :| Serves(cfg, chunkSet, s, step) then Apply(cfg, s, step) else s
  }

  ghost function ServedFor(cfg: Config, chunkSet: Option<string>, s: State, k: nat): State {
    if k == 0 then s else Served(cfg, chunkSet, ServedFor(cfg, chunkSet, s, k - 1))
  }

  ghost predicate ServedAt(cfg: Config, chunkSet: Option<string>, trace: nat -> State, n: nat) {
    exists step :: Serves(cfg, chunkSet, trace(n), step) && trace(n + 1) == Apply(cfg, trace(n), step)
  }

  /** From time a on the actors take turns. */
  ghost predicate ServedFrom(cfg: Config, chunkSet: Option<string>, trace: nat -> State, a: nat) {
    forall n :: a <= n ==> ServedAt(cfg, chunkSet, trace, n)
  }

  // ----- until nothing is open -----

  /** Between rounds and results, every attempt closed. */
  ghost predicate AtRest(s: State) { s.listener.Idle? && s.pump.pc.Idle? && !HasOpen(s) }

  /** Open attempts of which no result is in hand. */
  ghost function Unanswered(taskRuns: Runs, l: Listener): set<TaskRunId> {
    set q | q in taskRuns && taskRuns[q].status.Running? && !Handling(l, q)
  }

  ghost predicate Nearer(s: State, s': State) {
    || PumpAdvances(s.pump, s'.pump)
    || (s'.pump == s.pump && |Unanswered(s'.taskRuns, s'.listener)| < |Unanswered(s.taskRuns, s.listener)|)
    || (s'.pump == s.pump && |Unanswered(s'.taskRuns, s'.listener)| == |Unanswered(s.taskRuns, s.listener)|
        && ListenerAdvances(s.listener, s'.listener))
  }

  lemma ServingIsNearer(cfg: Config, chunkSet: Option<string>, s: State, step: Step)
    requires Reachable(cfg, s) && Serves(cfg, chunkSet, s, step) && !AtRest(s)
    ensures Nearer(s, Apply(cfg, s, step))
  {
    hide Reachable, Enabled, Apply, InOrder, Inv, ListenerAdvances, PumpAdvances, SuccessOf, Unanswered, IsOpen;
    ReachableInv(cfg, s);
    var s' := Apply(cfg, s, step);
    Footprint(cfg, s, step);
    if !s.listener.Idle? {
      ListenerKeepsUnanswered(cfg, s, step);
      Smaller(Unanswered(s'.taskRuns, s'.listener), Unanswered(s.taskRuns, s.listener));
    } else if s.pump.pc.Idle? {
      ReceiveAnswers(cfg, s, step);
      Smaller(Unanswered(s'.taskRuns, s'.listener), Unanswered(s.taskRuns, s.listener));
    }
  }

  lemma Smaller(a: set<TaskRunId>, b: set<TaskRunId>)
    requires a <= b
    ensures |a| <= |b| && (|a| == |b| ==> a == b)
  {
    assert b == a + (b - a);
  }

  lemma ReceiveAnswers(cfg: Config, s: State, step: Step)
    requires Enabled(cfg, s, step) && step.Receive? && IsOpen(s, step.rt.taskRunId)
    ensures var s' := Apply(cfg, s, step);
            Unanswered(s'.taskRuns, s'.listener) <= Unanswered(s.taskRuns, s.listener)
            && Unanswered(s'.taskRuns, s'.listener) != Unanswered(s.taskRuns, s.listener)
  {
    hide ChunkSets;
    var s' := Apply(cfg, s, step);
    assert step.rt.taskRunId in Unanswered(s.taskRuns, s.listener);
    assert step.rt.taskRunId !in Unanswered(s'.taskRuns, s'.listener);
  }

  lemma ListenerKeepsUnanswered(cfg: Config, s: State, step: Step)
    requires Inv(cfg, s) && Enabled(cfg, s, step) && OfListener(step)
    ensures var s' := Apply(cfg, s, step); Unanswered(s'.taskRuns, s'.listener) <= Unanswered(s.taskRuns, s.listener)
  {
    hide Inv, Enabled, Apply, Handling;
    var s' := Apply(cfg, s, step);
    assert Next(cfg, s, s');
    forall q | q in Unanswered(s'.taskRuns, s'.listener) ensures q in Unanswered(s.taskRuns, s.listener) {
      if Handling(s.listener, q) {
        StepHandles(cfg, s, s', q);
      }
      ListenerOpensNothing(cfg, s, step, q);
    }
  }

  lemma ListenerOpensNothing(cfg: Config, s: State, step: Step, q: TaskRunId)
    requires Inv(cfg, s) && Enabled(cfg, s, step) && OfListener(step) && IsOpen(Apply(cfg, s, step), q)
    ensures IsOpen(s, q)
  {
    hide Inv, Enabled, Apply;
    Footprint(cfg, s, step);
    if step.ListenSaveRun? {
      IsSavingRun(cfg, s, step);
      WrittenRun(cfg, s);
      ListenSteps(cfg, s);
    }
  }

  lemma IsSavingRun(cfg: Config, s: State, step: Step)
    requires Enabled(cfg, s, step) && step.ListenSaveRun?
    ensures s.listener.SaveRun?
  {
  }

  lemma ServedIsNearer(cfg: Config, chunkSet: Option<string>, trace: nat -> State, n: nat)
    requires IsInfiniteExecution(cfg, trace) && ServedAt(cfg, chunkSet, trace, n) && !AtRest(trace(n))
    ensures Nearer(trace(n), trace(n + 1))
  {
    hide IsInfiniteExecution, Reachable, Enabled, Apply, InOrder, ListenerAdvances, PumpAdvances, SuccessOf, HasOpen,
         IsOpen, AtRest, Nearer;
    var step :| Serves(cfg, chunkSet, trace(n), step) && trace(n + 1) == Apply(cfg, trace(n), step);
    TraceReachable(cfg, trace, n);
    ServingIsNearer(cfg, chunkSet, trace(n), step);
  }

  lemma {:induction false} NextRest(cfg: Config, chunkSet: Option<string>, trace: nat -> State, a: nat, n: nat) returns (m: nat)
    requires IsInfiniteExecution(cfg, trace) && ServedFrom(cfg, chunkSet, trace, a) && a <= n
    ensures n <= m && AtRest(trace(m))
    decreases |trace(n).pump.queue|, PumpRank(trace(n).pump.pc), |trace(n).pump.ready|,
              |Unanswered(trace(n).taskRuns, trace(n).listener)|, ListenRank(trace(n).listener), Rest(trace(n).listener)
  {
    hide IsInfiniteExecution, ServedAt, AtRest, Unanswered, PumpRank, ListenRank, Rest;
    m := n;
    if !AtRest(trace(n)) {
      ServedIsNearer(cfg, chunkSet, trace, n);
      m := NextRest(cfg, chunkSet, trace, a, n + 1);
    }
  }

  // ----- fairness -----

  lemma RestStartsRound(cfg: Config, chunkSet: Option<string>, trace: nat -> State, n: nat)
    requires ServedAt(cfg, chunkSet, trace, n) && AtRest(trace(n))
    ensures trace(n).pump.pc.Idle? && trace(n + 1).pump.pc.Check?
  {
    hide InOrder, ListenerAdvances, PumpAdvances, IsPendingList, HasOpen;
    var step :| Serves(cfg, chunkSet, trace(n), step) && trace(n + 1) == Apply(cfg, trace(n), step);
    assert step.PumpList?;
    StartedQueue(cfg, trace(n), step.queue);
  }

  /** A round that has ended was published. */
  lemma {:induction false} RoundPublishes(cfg: Config, trace: nat -> State, a: nat, c: nat) returns (b: nat)
    requires IsInfiniteExecution(cfg, trace) && a <= c && !trace(a).pump.pc.Idle? && trace(c).pump.pc.Idle?
    ensures a <= b < c && trace(b).pump.pc.Publish?
    decreases c - a
  {
    hide Next;
    b := a;
    if !trace(a).pump.pc.Publish? {
      assert Next(cfg, trace(a), trace(a + 1));
      OnlyPublishEnds(cfg, trace(a), trace(a + 1));
      b := RoundPublishes(cfg, trace, a + 1, c);
    }
  }

  lemma OnlyPublishEnds(cfg: Config, s: State, s': State)
    requires Next(cfg, s, s') && !s.pump.pc.Idle? && !s.pump.pc.Publish?
    ensures !s'.pump.pc.Idle?
  {
    hide Enabled, Apply;
    var step :| Enabled(cfg, s, step) && s' == Apply(cfg, s, step);
    Footprint(cfg, s, step);
    if step.IsPump() {
      RoundGoesOn(cfg, s, step);
    }
  }

  lemma RoundGoesOn(cfg: Config, s: State, step: Step)
    requires Enabled(cfg, s, step) && step.IsPump() && !s.pump.pc.Idle? && !s.pump.pc.Publish?
    ensures !Apply(cfg, s, step).pump.pc.Idle?
  {
    hide IsPendingList, IsReady, SiblingsUsed;
  }

  lemma ServedRounds(cfg: Config, chunkSet: Option<string>, trace: nat -> State, a: nat, n: nat)
    requires IsInfiniteExecution(cfg, trace) && ServedFrom(cfg, chunkSet, trace, a)
    ensures RoundAfter(trace, n) && IdleAfter(trace, n)
  {
    hide IsInfiniteExecution, ServedAt, HasOpen;
    var x := NextRest(cfg, chunkSet, trace, a, if n < a then a else n);
    RestStartsRound(cfg, chunkSet, trace, x);
    var y := NextRest(cfg, chunkSet, trace, a, x + 1);
    var b := RoundPublishes(cfg, trace, x + 1, y);
    assert RoundIn(trace, x, b);
  }

  // ----- every request is answered -----

  predicate ReceivesAttempt(l: Listener, q: TaskRunId) { l.GetRun? && l.m.taskRunId == q }

  /** An attempt is closed by a result that the listener has received. */
  lemma {:induction false} ClosedWasReceived(cfg: Config, trace: nat -> State, n: nat, q: TaskRunId) returns (m: nat)
    requires IsInfiniteExecution(cfg, trace) && (Terminal(trace(n).taskRuns, q) || Handling(trace(n).listener, q))
    ensures m <= n && ReceivesAttempt(trace(m).listener, q)
  {
    hide Next, Inv;
    if ReceivesAttempt(trace(n).listener, q) {
      m := n;
    } else {
      assert n > 0;
      TraceInv(cfg, trace, n - 1);
      assert Next(cfg, trace(n - 1), trace(n - 1 + 1));
      StepReceived(cfg, trace(n - 1), trace(n), q);
      m := ClosedWasReceived(cfg, trace, n - 1, q);
    }
  }

  lemma StepReceived(cfg: Config, s: State, s': State, q: TaskRunId)
    requires Inv(cfg, s) && Next(cfg, s, s')
    requires (Terminal(s'.taskRuns, q) || Handling(s'.listener, q)) && !ReceivesAttempt(s'.listener, q)
    ensures Terminal(s.taskRuns, q) || Handling(s.listener, q)
  {
    hide TasksOk, DagRunsOk, RunsOk, PlansOk, MembersOk, Shape, ShapesOk, NumbersOk, OrderOk, CacheOk, QueueOk,
         CacheCovers, DagReadOk, FanOutOk, Apply, Enabled, AttemptOk, ListenerOk, RequestsOk, MessageOk;
    var step :| Enabled(cfg, s, step) && s' == Apply(cfg, s, step);
    Footprint(cfg, s, step);
    match step
    case PumpSaveRun => AttemptRuns(cfg, s);
    case ListenSaveRun => SavedWasHandled(cfg, s, q);
    case _ =>
      if Handling(s'.listener, q) && !step.IsPump() && !step.PlanStart? && !step.PlanSave? {
        HandlingGoesOn(cfg, s, step, q);
      }
  }

  lemma AttemptRuns(cfg: Config, s: State)
    requires AttemptOk(s.taskRuns, s.sent, s.pump.pc, s.pump.queue) && Enabled(cfg, s, PumpSaveRun)
    ensures forall q :: Terminal(Apply(cfg, s, PumpSaveRun).taskRuns, q) ==> Terminal(s.taskRuns, q)
  {
  }

  lemma SavedWasHandled(cfg: Config, s: State, q: TaskRunId)
    requires Enabled(cfg, s, ListenSaveRun) && ListenerOk(cfg, s.tasks, s.taskRuns, s.listener) && RunsOk(s.tasks, s.taskRuns)
    requires var s' := Apply(cfg, s, ListenSaveRun); Terminal(s'.taskRuns, q) || Handling(s'.listener, q)
    ensures Terminal(s.taskRuns, q) || Handling(s.listener, q)
  {
  }

  lemma HandlingGoesOn(cfg: Config, s: State, step: Step, q: TaskRunId)
    requires Enabled(cfg, s, step) && !step.IsPump() && !step.PlanStart? && !step.PlanSave? && !step.ListenSaveRun?
    requires Handling(Apply(cfg, s, step).listener, q) && !ReceivesAttempt(Apply(cfg, s, step).listener, q)
    ensures Handling(s.listener, q)
  {
    hide DerivedStatus, FanOutIds, Answers, AfterSaveTask, FannedOutOrigins;
  }

  lemma {:induction false} SentStays(cfg: Config, trace: nat -> State, i: nat, j: nat)
    requires IsInfiniteExecution(cfg, trace) && i <= j
    ensures trace(i).sent <= trace(j).sent
    decreases j - i
  {
    hide Apply, Enabled;
    if i < j {
      SentStays(cfg, trace, i, j - 1);
      assert Next(cfg, trace(j - 1), trace(j - 1 + 1));
      var step :| Enabled(cfg, trace(j - 1), step) && trace(j) == Apply(cfg, trace(j - 1), step);
      StepKeepsSent(cfg, trace(j - 1), step);
    }
  }

  lemma StepKeepsSent(cfg: Config, s: State, step: Step)
    requires Enabled(cfg, s, step)
    ensures s.sent <= Apply(cfg, s, step).sent
  {
    hide PlanStartState, PlanSaveState, PumpCheckState, PumpCountState, PumpSaveRunState, PumpSaveTaskState, PumpGetDagState,
         PumpSaveDagState, ListenGetRunState, ListenSaveRunState, ListenGetTaskState, ListenCountState,
         ListenSaveTaskState, ListenFanOutState, ListenGetDagState, ListenTasksState, ListenSaveDagState;
    Footprint(cfg, s, step);
  }

  lemma ServedRequest(cfg: Config, chunkSet: Option<string>, trace: nat -> State, a: nat, n: nat, rt: ReadyTask) returns (m: nat)
    requires IsInfiniteExecution(cfg, trace) && ServedFrom(cfg, chunkSet, trace, a) && rt in trace(n).sent
    ensures Receives(trace(m).listener, rt)
  {
    hide IsInfiniteExecution, ServedFrom, Inv;
    var x := NextRest(cfg, chunkSet, trace, a, if n < a then a else n);
    SentStays(cfg, trace, n, x);
    TraceInv(cfg, trace, x);
    SentIsClosed(cfg, trace(x), rt);
    m := ClosedWasReceived(cfg, trace, x, rt.taskRunId);
  }

  lemma SentIsClosed(cfg: Config, s: State, rt: ReadyTask)
    requires Inv(cfg, s) && rt in s.sent && !HasOpen(s)
    ensures Terminal(s.taskRuns, rt.taskRunId)
  {
    hide TasksOk, DagRunsOk, RunsOk, PlansOk, MembersOk, Shape, ShapesOk, NumbersOk, OrderOk, CacheOk, QueueOk,
         CacheCovers, DagReadOk, FanOutOk, AttemptOk, ListenerOk, MessageOk;
    assert RequestOk(s.tasks, s.taskRuns, rt);
    assert !IsOpen(s, rt.taskRunId);
    if !s.taskRuns[rt.taskRunId].status.IsTerminal() {
      OpenAttemptRuns(cfg, s, rt.taskRunId);
    }
  }

  lemma ServedIsFair(cfg: Config, chunkSet: Option<string>, trace: nat -> State, a: nat)
    requires IsInfiniteExecution(cfg, trace) && ServedFrom(cfg, chunkSet, trace, a)
    ensures Fair(trace)
  {
    hide IsInfiniteExecution, ServedFrom, RoundAfter, IdleAfter, Receives;
    forall n: nat ensures RoundAfter(trace, n) && IdleAfter(trace, n) {
      ServedRounds(cfg, chunkSet, trace, a, n);
    }
    forall n: nat, rt | rt in trace(n).sent ensures exists m: nat :: Receives(trace(m).listener, rt) {
      var m := ServedRequest(cfg, chunkSet, trace, a, n, rt);
    }
  }

  // ----- the continuation -----

  /** An execution up to s, then the actors taking turns. */
  ghost function Continued(cfg: Config, chunkSet: Option<string>, states: seq<State>, s: State, n: nat): State {
    if n < |states| then states[n] else ServedFor(cfg, chunkSet, s, n - |states|)
  }

  lemma {:induction false} ServedStep(cfg: Config, chunkSet: Option<string>, s: State, k: nat) returns (step: Step)
    requires Reachable(cfg, s)
    ensures var now := ServedFor(cfg, chunkSet, s, k);
            Reachable(cfg, now) && Serves(cfg, chunkSet, now, step) && ServedFor(cfg, chunkSet, s, k + 1) == Apply(cfg, now, step)
  {
    hide Reachable, Enabled, Apply, InOrder, ListenerAdvances, PumpAdvances, SuccessOf, HasOpen, IsOpen;
    if k > 0 {
      var before := ServedStep(cfg, chunkSet, s, k - 1);
      Extend(cfg, ServedFor(cfg, chunkSet, s, k - 1), before);
    }
    var now := ServedFor(cfg, chunkSet, s, k);
    var some := CanServe(cfg, chunkSet, now);
    step :| Serves(cfg, chunkSet, now, step) && Served(cfg, chunkSet, now) == Apply(cfg, now, step);
  }

  lemma ContinuedStep(cfg: Config, chunkSet: Option<string>, states: seq<State>, s: State, trace: nat -> State, n: nat)
    requires IsExecution(cfg, states + [s])
    requires forall k: nat :: trace(k) == Continued(cfg, chunkSet, states, s, k)
    ensures Next(cfg, trace(n), trace(n + 1)) && (|states| <= n ==> ServedAt(cfg, chunkSet, trace, n))
  {
    hide Reachable, Next, Serves, ServedFor;
    var all := states + [s];
    if n < |states| {
      assert Next(cfg, all[n], all[n + 1]);
      assert trace(n) == all[n] && trace(n + 1) == all[n + 1] by {
        StartsWith(cfg, chunkSet, s);
      }
    } else {
      EndReachable(cfg, states, s);
      TailStep(cfg, chunkSet, s, n - |states|);
      assert n + 1 - |states| == n - |states| + 1;
    }
  }

  lemma StartsWith(cfg: Config, chunkSet: Option<string>, s: State)
    ensures ServedFor(cfg, chunkSet, s, 0) == s
  {
  }

  lemma EndReachable(cfg: Config, states: seq<State>, s: State)
    requires IsExecution(cfg, states + [s])
    ensures Reachable(cfg, s)
  {
    hide Next;
    assert (states + [s])[|states + [s]| - 1] == s;
  }

  lemma TailStep(cfg: Config, chunkSet: Option<string>, s: State, k: nat)
    requires Reachable(cfg, s)
    ensures var now, later := ServedFor(cfg, chunkSet, s, k), ServedFor(cfg, chunkSet, s, k + 1);
            Next(cfg, now, later) && exists step :: Serves(cfg, chunkSet, now, step) && later == Apply(cfg, now, step)
  {
    hide Reachable, Enabled, Apply, InOrder, ListenerAdvances, PumpAdvances, SuccessOf, HasOpen, IsOpen;
    var step := ServedStep(cfg, chunkSet, s, k);
  }

  lemma ServedInOrder(cfg: Config, chunkSet: Option<string>, trace: nat -> State, n: nat)
    requires ServedAt(cfg, chunkSet, trace, n)
    ensures InOrder(trace(n), trace(n + 1))
  {
    hide Enabled, Apply, InOrder, ListenerAdvances, PumpAdvances, SuccessOf, HasOpen, IsOpen;
  }

  lemma ServedFromWorker(cfg: Config, chunkSet: Option<string>, trace: nat -> State, n: nat)
    requires ServedAt(cfg, chunkSet, trace, n) && FromWorker(chunkSet, trace(n))
    ensures FromWorker(chunkSet, trace(n + 1))
  {
    hide Enabled, Apply, InOrder, SuccessOf, HasOpen, IsOpen, PumpAdvances;
    var s, s' := trace(n), trace(n + 1);
    var step :| Serves(cfg, chunkSet, s, step) && s' == Apply(cfg, s, step);
    Footprint(cfg, s, step);
    StepKeepsSent(cfg, s, step);
    if !s.listener.Idle? {
      if !s'.listener.Idle? {
        var rt :| rt in s.sent && s.listener.m == SuccessOf(chunkSet, rt);
        assert rt in s'.sent;
      }
    } else if step.Receive? {
      ReceivedIs(cfg, s, step);
    }
  }

  lemma ReceivedIs(cfg: Config, s: State, step: Step)
    requires Enabled(cfg, s, step) && step.Receive?
    ensures step.rt in s.sent && Apply(cfg, s, step) == s.(listener := Listener.GetRun(step.m))
  {
    hide Answers;
  }

  lemma {:induction false} FromWorkerOn(cfg: Config, chunkSet: Option<string>, trace: nat -> State, a: nat, n: nat)
    requires ServedFrom(cfg, chunkSet, trace, a) && FromWorker(chunkSet, trace(a)) && a <= n
    ensures FromWorker(chunkSet, trace(n))
    decreases n - a
  {
    hide ServedAt, FromWorker;
    if a < n {
      FromWorkerOn(cfg, chunkSet, trace, a, n - 1);
      ServedFromWorker(cfg, chunkSet, trace, n - 1);
    }
  }

  lemma IdleIsFromWorker(chunkSet: Option<string>, s: State)
    requires s.listener.Idle?
    ensures FromWorker(chunkSet, s)
  {
  }

  /** Every execution can go on fairly, under time-ordered ids; if the listener is idle, with the worker's successes only. */
  lemma FairContinuation(cfg: Config, chunkSet: Option<string>, states: seq<State>, s: State) returns (trace: nat -> State)
    requires IsExecution(cfg, states + [s])
    ensures IsInfiniteExecution(cfg, trace) && Fair(trace)
    ensures forall n :: 0 <= n <= |states| ==> trace(n) == (states + [s])[n]
    ensures forall n :: |states| <= n ==> InOrder(trace(n), trace(n + 1))
    ensures s.listener.Idle? ==> forall n :: |states| <= n ==> FromWorker(chunkSet, trace(n))
    ensures forall n :: |states| <= n ==> trace(n).plans == s.plans
  {
    hide Next, Reachable, InOrder, Continued, ServedAt, FromWorker, Fair;
    var go := (k: nat) => Continued(cfg, chunkSet, states, s, k);
    trace := go;
    var a := |states|;
    forall n: nat ensures Next(cfg, go(n), go(n + 1)) && (a <= n ==> ServedAt(cfg, chunkSet, go, n)) {
      ContinuedStep(cfg, chunkSet, states, s, go, n);
    }
    forall n | 0 <= n <= a ensures go(n) == (states + [s])[n] {
      ContinuedStart(cfg, chunkSet, states, s, n);
    }
    assert go(0) == INIT;
    assert IsInfiniteExecution(cfg, go);
    ServedIsFair(cfg, chunkSet, go, a);
    forall n | a <= n ensures InOrder(go(n), go(n + 1)) {
      ServedInOrder(cfg, chunkSet, go, n);
    }
    forall n | a <= n ensures go(n).plans == s.plans {
      NoNewPlans(cfg, chunkSet, go, a, n);
    }
    if s.listener.Idle? {
      IdleIsFromWorker(chunkSet, s);
      forall n | a <= n ensures FromWorker(chunkSet, go(n)) {
        FromWorkerOn(cfg, chunkSet, go, a, n);
      }
    }
  }

  lemma ServedPlansNothing(cfg: Config, chunkSet: Option<string>, trace: nat -> State, n: nat)
    requires ServedAt(cfg, chunkSet, trace, n)
    ensures trace(n + 1).plans == trace(n).plans
  {
    hide Enabled, Apply, InOrder, ListenerAdvances, PumpAdvances, SuccessOf, HasOpen, IsOpen;
    var step :| Serves(cfg, chunkSet, trace(n), step) && trace(n + 1) == Apply(cfg, trace(n), step);
    Footprint(cfg, trace(n), step);
  }

  lemma {:induction false} NoNewPlans(cfg: Config, chunkSet: Option<string>, trace: nat -> State, a: nat, n: nat)
    requires ServedFrom(cfg, chunkSet, trace, a) && a <= n
    ensures trace(n).plans == trace(a).plans
    decreases n - a
  {
    hide ServedAt;
    if a < n {
      NoNewPlans(cfg, chunkSet, trace, a, n - 1);
      ServedPlansNothing(cfg, chunkSet, trace, n - 1);
    }
  }

  lemma ContinuedStart(cfg: Config, chunkSet: Option<string>, states: seq<State>, s: State, n: nat)
    requires n <= |states|
    ensures Continued(cfg, chunkSet, states, s, n) == (states + [s])[n]
  {
  }
}
