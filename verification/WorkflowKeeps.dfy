/** What each kind of repository write does to the parts of the invariant. */
module WorkflowKeeps {
  import opened WorkflowTypes
  import opened WorkflowMachine
  import opened WorkflowInvariant

  // ----- rewriting a task row -----

  /** t rewrites row k without touching its identity. */
  ghost predicate Rewrites(tasks: Tasks, k: TaskId, t: Task) {
    k in tasks && t.id == k == tasks[k].id && t.dagRunId == tasks[k].dagRunId && t.kind == tasks[k].kind
  }

  lemma RewriteKeepsIdentities(cfg: Config, s: State, k: TaskId, t: Task, origins: map<TaskId, Origin>)
    requires Rewrites(s.tasks, k, t)
    requires TasksOk(s.tasks, s.plans, s.origins) && RunsOk(s.tasks, s.taskRuns) && NumbersOk(cfg, s.tasks, s.taskRuns)
    requires forall x :: x in s.origins ==> x in origins && origins[x] == s.origins[x]
    ensures TasksOk(s.tasks[k := t], s.plans, origins)
    ensures RunsOk(s.tasks[k := t], s.taskRuns) && NumbersOk(cfg, s.tasks[k := t], s.taskRuns)
  {
  }

  lemma RewriteKeepsPlans(s: State, k: TaskId, t: Task, origins: map<TaskId, Origin>)
    requires Rewrites(s.tasks, k, t) && PlansOk(s.tasks, s.plans, s.origins)
    requires forall x :: x in s.origins ==> x in origins && origins[x] == s.origins[x]
    ensures PlansOk(s.tasks[k := t], s.plans, origins)
  {
    forall r | r in s.plans ensures PlanOk(s.tasks[k := t], origins, r, s.plans[r]) {
      assert PlanOk(s.tasks, s.origins, r, s.plans[r]);
    }
  }

  lemma RewriteKeepsRequests(s: State, k: TaskId, t: Task)
    requires Rewrites(s.tasks, k, t) && RequestsOk(s.tasks, s.taskRuns, s.sent, s.pump.ready)
    ensures RequestsOk(s.tasks[k := t], s.taskRuns, s.sent, s.pump.ready)
  {
  }

  /** A row that is not Success may be rewritten: what was Success stays so. */
  lemma RewriteKeepsProgress(s: State, k: TaskId, t: Task)
    requires Rewrites(s.tasks, k, t) && !s.tasks[k].status.Success?
    requires MembersOk(s.tasks, s.plans) && CacheOk(s.tasks, s.plans, s.pump.cache) && OrderOk(s.tasks, s.taskRuns, s.pump)
    ensures MembersOk(s.tasks[k := t], s.plans) && CacheOk(s.tasks[k := t], s.plans, s.pump.cache)
    ensures OrderOk(s.tasks[k := t], s.taskRuns, s.pump)
  {
    hide MembersOk, CacheOk, OrderOk;
    RewriteKeepsMembers(s, k, t);
    RewriteKeepsCache(s, k, t);
    RewriteKeepsOrder(s, k, t);
  }

  lemma RewriteKeepsMembers(s: State, k: TaskId, t: Task)
    requires Rewrites(s.tasks, k, t) && !s.tasks[k].status.Success? && MembersOk(s.tasks, s.plans)
    ensures MembersOk(s.tasks[k := t], s.plans)
  {
    var tasks' := s.tasks[k := t];
    forall x | x in tasks'
      ensures IsPlanned(s.plans, tasks'[x]) || (tasks'[x].kind == Embedder && PlannedDone(s.plans, tasks', tasks'[x].dagRunId, 2))
    {
      assert IsPlanned(s.plans, s.tasks[x]) || PlannedDone(s.plans, s.tasks, s.tasks[x].dagRunId, 2);
    }
  }

  lemma RewriteKeepsCache(s: State, k: TaskId, t: Task)
    requires Rewrites(s.tasks, k, t) && !s.tasks[k].status.Success? && CacheOk(s.tasks, s.plans, s.pump.cache)
    ensures CacheOk(s.tasks[k := t], s.plans, s.pump.cache)
  {
  }

  lemma RewriteKeepsOrder(s: State, k: TaskId, t: Task)
    requires Rewrites(s.tasks, k, t) && !s.tasks[k].status.Success? && OrderOk(s.tasks, s.taskRuns, s.pump)
    ensures OrderOk(s.tasks[k := t], s.taskRuns, s.pump)
  {
    forall x | x in s.tasks && Started(s.taskRuns, s.pump, x) ensures LowerDone(s.tasks[k := t], s.tasks[k := t][x]) {
      assert LowerDone(s.tasks, s.tasks[x]);
    }
  }

  // ----- inserting a task row -----

  lemma InsertKeepsIdentities(cfg: Config, s: State, t: Task, plans: Plans)
    requires plans.Keys == s.plans.Keys
    requires t.id !in s.tasks && t.id in s.origins && s.origins[t.id].run == t.dagRunId && t.dagRunId in s.plans
    requires Ordering(t.kind) < 5
    requires TasksOk(s.tasks, s.plans, s.origins) && RunsOk(s.tasks, s.taskRuns) && NumbersOk(cfg, s.tasks, s.taskRuns)
    ensures RunsOf(s.taskRuns, t.id) == {}
    ensures TasksOk(s.tasks[t.id := t], plans, s.origins)
    ensures RunsOk(s.tasks[t.id := t], s.taskRuns) && NumbersOk(cfg, s.tasks[t.id := t], s.taskRuns)
  {
    assert RunsOf(s.taskRuns, t.id) == {};
  }

  lemma InsertKeepsRequests(s: State, t: Task)
    requires t.id !in s.tasks && RequestsOk(s.tasks, s.taskRuns, s.sent, s.pump.ready)
    ensures RequestsOk(s.tasks[t.id := t], s.taskRuns, s.sent, s.pump.ready)
  {
  }

  lemma InsertKeepsShapes(cfg: Config, s: State, t: Task, listener: Listener)
    requires t.id !in s.tasks && t.status.Pending? && RunsOk(s.tasks, s.taskRuns)
    requires Closing(s.listener) ==> listener == s.listener
    requires Closing(listener) ==> listener == s.listener && listener.m.taskId in s.tasks
    requires s.pump.pc.SaveTask? ==> s.pump.pc.run.taskId in s.tasks
    requires ShapesOk(cfg, s.tasks, s.taskRuns, s.pump.pc, s.listener)
    ensures ShapesOk(cfg, s.tasks[t.id := t], s.taskRuns, s.pump.pc, listener)
  {
    assert RunsOf(s.taskRuns, t.id) == {};
  }

  /** A new row may only be of a stage that no started task of its run waits for. */
  lemma InsertKeepsProgress(s: State, t: Task, plans: Plans)
    requires t.id !in s.tasks && !t.status.Success? && RunsOk(s.tasks, s.taskRuns)
    requires s.pump.queue != [] ==> s.pump.queue[0].id in s.tasks
    requires plans.Keys == s.plans.Keys && forall r :: r in plans ==> plans[r].tasks == s.plans[r].tasks
    requires MembersOk(s.tasks, s.plans) && CacheOk(s.tasks, s.plans, s.pump.cache) && OrderOk(s.tasks, s.taskRuns, s.pump)
    requires IsPlanned(plans, t) || (t.kind == Embedder && PlannedDone(s.plans, s.tasks, t.dagRunId, 2))
    requires forall k :: k in s.tasks && s.tasks[k].dagRunId == t.dagRunId && Started(s.taskRuns, s.pump, k) ==>
               Ordering(s.tasks[k].kind) <= Ordering(t.kind)
    requires t.kind == Embedder && t.dagRunId in s.pump.cache ==>
               !PlannedDone(s.plans, s.pump.cache[t.dagRunId], t.dagRunId, 3)
    ensures MembersOk(s.tasks[t.id := t], plans) && CacheOk(s.tasks[t.id := t], plans, s.pump.cache)
    ensures OrderOk(s.tasks[t.id := t], s.taskRuns, s.pump)
  {
    var tasks' := s.tasks[t.id := t];
    assert RunsOf(s.taskRuns, t.id) == {};
    forall x | x in tasks' && Started(s.taskRuns, s.pump, x) ensures LowerDone(tasks', tasks'[x]) {
      assert x != t.id;
      assert LowerDone(s.tasks, s.tasks[x]);
    }
    forall x | x in tasks'
      ensures IsPlanned(plans, tasks'[x]) || (tasks'[x].kind == Embedder && PlannedDone(plans, tasks', tasks'[x].dagRunId, 2))
    {
      if x != t.id {
        assert IsPlanned(s.plans, s.tasks[x]) || PlannedDone(s.plans, s.tasks, s.tasks[x].dagRunId, 2);
      }
    }
    CacheAfterInsert(s, t, plans);
  }

  lemma CacheAfterInsert(s: State, t: Task, plans: Plans)
    requires t.id !in s.tasks && CacheOk(s.tasks, s.plans, s.pump.cache)
    requires plans.Keys == s.plans.Keys && forall r :: r in plans ==> plans[r].tasks == s.plans[r].tasks
    requires t.kind == Embedder && t.dagRunId in s.pump.cache ==>
               !PlannedDone(s.plans, s.pump.cache[t.dagRunId], t.dagRunId, 3)
    ensures CacheOk(s.tasks[t.id := t], plans, s.pump.cache)
  {
    forall r | r in s.pump.cache && PlannedDone(plans, s.pump.cache[r], r, 3)
      ensures PlannedDone(s.plans, s.pump.cache[r], r, 3)
    {
    }
  }

  // ----- writing an attempt -----

  lemma RunsAfterSave(taskRuns: Runs, run: TaskRun, k: TaskId)
    requires run.id in taskRuns ==> taskRuns[run.id].taskId == run.taskId
    ensures RunsOf(taskRuns[run.id := run], k) == RunsOf(taskRuns, k) + (if k == run.taskId then {run.id} else {})
  {
  }

  /** Tasks other than the written attempt's keep their shape. */
  lemma SaveKeepsOthers(cfg: Config, taskRuns: Runs, run: TaskRun, k: TaskId, status: TaskStatus)
    requires run.id in taskRuns ==> taskRuns[run.id].taskId == run.taskId
    requires k != run.taskId && Shape(cfg, taskRuns, k, status)
    ensures Shape(cfg, taskRuns[run.id := run], k, status)
  {
    RunsAfterSave(taskRuns, run, k);
    var after := taskRuns[run.id := run];
    assert RunsOf(after, k) == RunsOf(taskRuns, k);
    if status.Running? || status.Success? {
      var want := if status.Running? then TaskRunStatus.Running else TaskRunStatus.Success;
      var q :| q in RunsOf(taskRuns, k) && taskRuns[q].status == want && AllFailed(taskRuns, RunsOf(taskRuns, k) - {q});
      assert after[q].status == want && AllFailed(after, RunsOf(after, k) - {q});
    }
  }

  lemma AddNumbered(bound: nat, taskRuns: Runs, runs: set<TaskRunId>, run: TaskRun)
    requires run.id !in taskRuns && run.attemptNo == |runs| < bound && NumberedIn(bound, taskRuns, runs)
    ensures NumberedIn(bound, taskRuns[run.id := run], runs + {run.id})
  {
    assert |runs + {run.id}| == |runs| + 1;
  }

  lemma OtherNumbered(bound: nat, taskRuns: Runs, runs: set<TaskRunId>, run: TaskRun)
    requires run.id !in taskRuns && NumberedIn(bound, taskRuns, runs)
    ensures NumberedIn(bound, taskRuns[run.id := run], runs)
  {
  }

  lemma NewAttemptNumbered(cfg: Config, taskRuns: Runs, run: TaskRun, k: TaskId)
    requires run.id !in taskRuns && run.attemptNo == |RunsOf(taskRuns, run.taskId)| < cfg.MaxRuns()
    requires Numbered(cfg, taskRuns, k)
    ensures Numbered(cfg, taskRuns[run.id := run], k)
  {
    RunsAfterSave(taskRuns, run, k);
    var runs := RunsOf(taskRuns, k);
    if k == run.taskId {
      AddNumbered(cfg.MaxRuns(), taskRuns, runs, run);
    } else {
      OtherNumbered(cfg.MaxRuns(), taskRuns, runs, run);
    }
  }

  lemma NewAttemptKeepsNumbers(cfg: Config, tasks: Tasks, taskRuns: Runs, run: TaskRun)
    requires run.id !in taskRuns && run.attemptNo == |RunsOf(taskRuns, run.taskId)| < cfg.MaxRuns()
    requires NumbersOk(cfg, tasks, taskRuns)
    ensures NumbersOk(cfg, tasks, taskRuns[run.id := run])
  {
    forall k | k in tasks ensures Numbered(cfg, taskRuns[run.id := run], k) {
      NewAttemptNumbered(cfg, taskRuns, run, k);
    }
  }

  lemma ClosingNumbered(cfg: Config, taskRuns: Runs, m: WorkerStatus, q: TaskRunId, k: TaskId)
    requires q in taskRuns && taskRuns[q].id == q && Numbered(cfg, taskRuns, k)
    ensures Numbered(cfg, taskRuns[q := ClosedRun(m, taskRuns[q])], k)
  {
    hide RunsOf;
    var run := ClosedRun(m, taskRuns[q]);
    RunsAfterSave(taskRuns, run, k);
    RunIsCounted(taskRuns, q);
    var runs := RunsOf(taskRuns, k);
    assert NumberedIn(cfg.MaxRuns(), taskRuns, runs);
    assert RunsOf(taskRuns[q := run], k) == runs;
  }

  lemma RunIsCounted(taskRuns: Runs, q: TaskRunId)
    requires q in taskRuns
    ensures q in RunsOf(taskRuns, taskRuns[q].taskId)
  {
  }

  lemma ClosingKeepsNumbers(cfg: Config, tasks: Tasks, taskRuns: Runs, m: WorkerStatus, q: TaskRunId)
    requires q in taskRuns && taskRuns[q].id == q && NumbersOk(cfg, tasks, taskRuns)
    ensures NumbersOk(cfg, tasks, taskRuns[q := ClosedRun(m, taskRuns[q])])
  {
    forall k | k in tasks ensures Numbered(cfg, taskRuns[q := ClosedRun(m, taskRuns[q])], k) {
      ClosingNumbered(cfg, taskRuns, m, q, k);
    }
  }

  /** A first attempt, or a retry, turns a Pending shape into a Running one. */
  lemma NewAttemptShape(cfg: Config, taskRuns: Runs, run: TaskRun)
    requires run.id !in taskRuns && run.status.Running?
    requires Shape(cfg, taskRuns, run.taskId, TaskStatus.Pending)
    ensures Shape(cfg, taskRuns[run.id := run], run.taskId, TaskStatus.Running)
    ensures |RunsOf(taskRuns, run.taskId)| < cfg.MaxRuns()
  {
    RunsAfterSave(taskRuns, run, run.taskId);
    var after := taskRuns[run.id := run];
    var runs := RunsOf(after, run.taskId);
    assert runs - {run.id} == RunsOf(taskRuns, run.taskId);
    assert after[run.id].status == TaskRunStatus.Running && AllFailed(after, runs - {run.id});
  }

  /** Closing the Running attempt of a task gives the shape of the status the handler will store. */
  lemma ClosedShape(cfg: Config, taskRuns: Runs, m: WorkerStatus, q: TaskRunId)
    requires q in taskRuns && taskRuns[q].id == q && taskRuns[q].status.Running?
    requires Shape(cfg, taskRuns, taskRuns[q].taskId, TaskStatus.Running)
    ensures var after := taskRuns[q := ClosedRun(m, taskRuns[q])];
            var k := taskRuns[q].taskId;
            RunsOf(after, k) == RunsOf(taskRuns, k) && Shape(cfg, after, k, Outcome(cfg, m, |RunsOf(after, k)|))
  {
    var after, k := taskRuns[q := ClosedRun(m, taskRuns[q])], taskRuns[q].taskId;
    RunsAfterSave(taskRuns, ClosedRun(m, taskRuns[q]), k);
    assert RunsOf(after, k) == RunsOf(taskRuns, k);
    var p :| p in RunsOf(taskRuns, k) && taskRuns[p].status == TaskRunStatus.Running
             && AllFailed(taskRuns, RunsOf(taskRuns, k) - {p});
    assert q in RunsOf(taskRuns, k);
    assert p == q;
    assert AllFailed(after, RunsOf(after, k) - {q});
  }

  /** A task with a Running attempt is settled Running, and the attempt is the only one. */
  lemma RunningAttempt(cfg: Config, taskRuns: Runs, q: TaskRunId, status: TaskStatus)
    requires q in taskRuns && taskRuns[q].status.Running? && Shape(cfg, taskRuns, taskRuns[q].taskId, status)
    ensures status.Running?
    ensures forall p :: p in RunsOf(taskRuns, taskRuns[q].taskId) && taskRuns[p].status.Running? ==> p == q
  {
    assert q in RunsOf(taskRuns, taskRuns[q].taskId);
  }

  // ----- the fan-out window -----

  /** A stored row is settled as stored, unless a write for it is in flight. */
  lemma SettledAsStored(cfg: Config, s: State, k: TaskId)
    requires k in s.tasks && !s.tasks[k].status.Pending? && !s.tasks[k].status.Running?
    requires QueueOk(s.tasks, s.pump.pc, s.pump.queue) && AttemptOk(s.taskRuns, s.sent, s.pump.pc, s.pump.queue)
    requires ListenerOk(cfg, s.tasks, s.taskRuns, s.listener)
    ensures SettledStatus(cfg, s.tasks, s.taskRuns, s.pump.pc, s.listener, k) == s.tasks[k].status
  {
  }

  /** A successful task has been dispatched, so every earlier stage of its run is done. */
  lemma SuccessWasOrdered(cfg: Config, s: State, k: TaskId)
    requires k in s.tasks && s.tasks[k].status.Success?
    requires QueueOk(s.tasks, s.pump.pc, s.pump.queue) && AttemptOk(s.taskRuns, s.sent, s.pump.pc, s.pump.queue)
    requires ListenerOk(cfg, s.tasks, s.taskRuns, s.listener)
    requires ShapesOk(cfg, s.tasks, s.taskRuns, s.pump.pc, s.listener) && OrderOk(s.tasks, s.taskRuns, s.pump)
    ensures LowerDone(s.tasks, s.tasks[k])
  {
    SettledAsStored(cfg, s, k);
    assert Shape(cfg, s.taskRuns, k, TaskStatus.Success);
  }

  /** If the planned embedder is done, so is the planned chunker. */
  lemma EmbedderAfterChunker(cfg: Config, s: State, r: DagRunId)
    requires Inv(cfg, s) && PlannedDone(s.plans, s.tasks, r, 3)
    ensures PlannedDone(s.plans, s.tasks, r, 2)
  {
    hide MembersOk, NumbersOk, CacheOk, CacheCovers, RequestsOk, MessageOk, DagReadOk, FanOutOk, RunsOk, DagRunsOk, Shape;
    hide QueueOk, AttemptOk, ListenerOk, ShapesOk, OrderOk;
    var e := s.plans[r].tasks[3].id;
    SuccessWasOrdered(cfg, s, e);
    assert PlanOk(s.tasks, s.origins, r, s.plans[r]);
    assert s.plans[r].tasks[2].id in s.tasks;
  }

  // ----- readiness -----

  /** The stale listing never lies in favour of a dispatch: what it calls ready is ready on a fresh read. */
  lemma CachedReadyIsReady(s: State, t: Task, siblings: Tasks)
    requires t.id in s.tasks && s.tasks[t.id].dagRunId == t.dagRunId && s.tasks[t.id].kind == t.kind
    requires TasksOk(s.tasks, s.plans, s.origins) && PlansOk(s.tasks, s.plans, s.origins) && MembersOk(s.tasks, s.plans)
    requires CacheOk(s.tasks, s.plans, map[t.dagRunId := siblings])
    requires forall j :: 0 <= j < Ordering(t.kind) && j < |s.plans[t.dagRunId].tasks| ==>
               s.plans[t.dagRunId].tasks[j].id in siblings
    requires IsReady(t, siblings)
    ensures LowerDone(s.tasks, t)
  {
    hide PlansOk, PlanOk, CacheOk, IsReady;
    ListingOk(s, t.dagRunId, siblings);
    ReadyListing(s, t, siblings);
    forall a | a in s.tasks && s.tasks[a].dagRunId == t.dagRunId && Ordering(s.tasks[a].kind) < Ordering(t.kind)
      ensures s.tasks[a].status.Success?
    {
      if IsPlanned(s.plans, s.tasks[a]) {
        assert s.plans[t.dagRunId].tasks[Ordering(s.tasks[a].kind)].id == a;
      } else {
        assert s.tasks[a].kind == Embedder;
      }
    }
  }

  lemma ListingOk(s: State, r: DagRunId, siblings: Tasks)
    requires CacheOk(s.tasks, s.plans, map[r := siblings])
    ensures forall k :: k in siblings ==>
              && k in s.tasks && s.tasks[k].kind == siblings[k].kind && !siblings[k].status.Skipped?
              && (siblings[k].status.Success? ==> s.tasks[k].status.Success?)
    ensures PlannedDone(s.plans, siblings, r, 3) ==>
              forall k :: k in s.tasks && s.tasks[k].dagRunId == r && s.tasks[k].kind == Embedder ==> k in siblings
  {
    assert r in map[r := siblings];
  }

  /** Ready by the listing: every listed task of an earlier stage is done, the planned embedder included. */
  lemma ReadyListing(s: State, t: Task, siblings: Tasks)
    requires IsReady(t, siblings) && Ordering(t.kind) < 5 && t.dagRunId in s.plans && PlansOk(s.tasks, s.plans, s.origins)
    requires forall k :: k in siblings ==>
               k in s.tasks && s.tasks[k].kind == siblings[k].kind && !siblings[k].status.Skipped?
    requires forall j :: 0 <= j < Ordering(t.kind) && j < |s.plans[t.dagRunId].tasks| ==>
               s.plans[t.dagRunId].tasks[j].id in siblings
    ensures forall k :: k in siblings && Ordering(siblings[k].kind) < Ordering(t.kind) ==> siblings[k].status.Success?
    ensures Ordering(t.kind) == 4 ==> PlannedDone(s.plans, siblings, t.dagRunId, 3)
    ensures |s.plans[t.dagRunId].tasks| == 5
  {
    assert PlanOk(s.tasks, s.origins, t.dagRunId, s.plans[t.dagRunId]);
    if Ordering(t.kind) == 4 {
      var e := s.plans[t.dagRunId].tasks[3].id;
      assert e in siblings && siblings[e].kind == Embedder;
    }
  }
}
