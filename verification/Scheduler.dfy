/**
  `DbPlanner` and `DbScheduler` over the repositories. Each method is proved twice: its contract says what it does to
  the rows, and the ghost path it returns shows that its repository calls are steps of the machine, so whatever holds
  in every reachable state of the machine holds between any two repository calls of these methods.
*/
module Scheduler {
  import opened Wrappers
  import opened WorkflowTypes
  import opened WorkflowMachine
  import opened Repositories
  import Json

  function Last(path: seq<State>): State
    requires |path| > 0
  {
    path[|path| - 1]
  }

  /** The path one step further. */
  lemma Take(cfg: Config, path: seq<State>, step: Step, s': State) returns (longer: seq<State>)
    requires |path| > 0 && IsPath(cfg, path, ActorOf(step)) && Enabled(cfg, Last(path), step)
    requires Apply(cfg, Last(path), step) == s'
    ensures longer == path + [s'] && IsPath(cfg, longer, ActorOf(step))
  {
    hide Enabled, Apply;
    longer := path + [s'];
    assert Moves(cfg, Last(path), s', ActorOf(step));
    forall i | 0 <= i < |longer| - 1 ensures Moves(cfg, longer[i], longer[i + 1], ActorOf(step)) {
      if i < |path| - 1 {
        assert Moves(cfg, path[i], path[i + 1], ActorOf(step));
      }
    }
  }

  lemma Join(cfg: Config, a: seq<State>, b: seq<State>, actor: Actor) returns (c: seq<State>)
    requires IsPath(cfg, a, actor) && IsPath(cfg, b, actor) && Last(a) == b[0]
    ensures |c| > 0 && IsPath(cfg, c, actor) && c[0] == a[0] && Last(c) == Last(b)
  {
    hide Moves;
    c := a + b[1..];
    forall i | 0 <= i < |c| - 1 ensures Moves(cfg, c[i], c[i + 1], actor) {
      if i < |a| - 1 {
        assert Moves(cfg, a[i], a[i + 1], actor);
      } else {
        var n := i - (|a| - 1);
        assert Moves(cfg, b[n], b[n + 1], actor);
      }
    }
  }

  /** `is_ready` over a listing: the loop over the siblings with its early return. */
  method IsReadyAmong(task: Task, siblings: seq<Task>) returns (ready: bool)
    requires forall i, j :: 0 <= i < j < |siblings| ==> siblings[i].id != siblings[j].id
    ensures ready == IsReady(task, ById(siblings))
    ensures ready <==> ((task.status.Pending? || task.status.Ready?)
                        && forall t :: t in siblings && StageBefore(t.kind, task.kind) ==> t.status.Success? || t.status.Skipped?)
  {
    ByIdRows(siblings);
    if !(task.status.Pending? || task.status.Ready?) {
      return false;
    }
    var idx := Ordering(task.kind);
    if idx == 0 || idx == USIZE_MAX {
      return true;
    }
    for n := 0 to |siblings|
      invariant forall i :: 0 <= i < n && Ordering(siblings[i].kind) < idx ==>
                  siblings[i].status.Success? || siblings[i].status.Skipped?
    {
      if Ordering(siblings[n].kind) < idx && !(siblings[n].status.Success? || siblings[n].status.Skipped?) {
        assert siblings[n].id in ById(siblings) && siblings[n] in siblings;
        return false;
      }
    }
    return true;
  }

  /** The status that the listed rows of a run derive is the status the stored rows derive. */
  lemma ListedStatus(tasks: map<TaskId, Task>, run: DagRunId, list: seq<Task>)
    requires forall k :: k in tasks ==> tasks[k].id == k
    requires forall t :: t in list <==> t.id in tasks && tasks[t.id] == t && t.dagRunId == run
    ensures DagStatusFromTasks(seq(|list|, i requires 0 <= i < |list| => list[i].status)) == DerivedStatus(tasks, run)
  {
    var statuses := seq(|list|, i requires 0 <= i < |list| => list[i].status);
    forall k | k in tasks && tasks[k].dagRunId == run ensures exists i :: 0 <= i < |list| && list[i] == tasks[k] {
      assert tasks[k] in list;
    }
    forall i | 0 <= i < |list| ensures list[i].id in tasks && tasks[list[i].id] == list[i] && list[i].dagRunId == run {
      assert list[i] in list;
    }
    forall k | k in tasks && tasks[k].dagRunId == run
      ensures exists i :: 0 <= i < |statuses| && statuses[i] == tasks[k].status
    {
      var i :| 0 <= i < |list| && list[i] == tasks[k];
      assert statuses[i] == tasks[k].status;
    }
  }

  class DbPlanner {
    const dagRuns: MemDagRunRepo
    const tasks: MemTaskRepo
    const dagRunIds: IdSource
    const taskIds: IdSource

    constructor (dagRuns: MemDagRunRepo, tasks: MemTaskRepo, dagRunIds: IdSource, taskIds: IdSource)
      ensures this.dagRuns == dagRuns && this.tasks == tasks && this.dagRunIds == dagRunIds && this.taskIds == taskIds
    {
      this.dagRuns, this.tasks, this.dagRunIds, this.taskIds := dagRuns, tasks, dagRunIds, taskIds;
    }

    ghost predicate Matches(s: State)
      reads dagRuns, tasks, dagRunIds, taskIds
    {
      && dagRuns.Valid() && tasks.Valid() && dagRunIds != taskIds
      && dagRuns.rows == s.dagRuns && tasks.rows == s.tasks
      && (forall r :: r in s.plans || r in s.dagRuns ==> r < dagRunIds.next)
      && (forall k :: k in s.origins ==> k < taskIds.next)
      && s.tasks.Keys <= s.origins.Keys
    }

    /** Saves the run and builds the task vector under new ids. */
    method StartPlan(cfg: Config, tenant: TenantId, input: Json.Value, ghost s: State)
      returns (run: DagRunId, ids: seq<TaskId>, ghost s': State)
      requires Matches(s)
      modifies dagRuns, dagRunIds, taskIds
      ensures run !in s.dagRuns && run !in s.plans && |ids| == 5 && FreshIds(s, ids)
      ensures forall i :: 0 <= i < 5 ==> ids[i] == old(taskIds.next) + i
      ensures Enabled(cfg, s, PlanStart(run, tenant, input, ids)) && Apply(cfg, s, PlanStart(run, tenant, input, ids)) == s'
      ensures Matches(s')
      ensures s' == s.(dagRuns := s.dagRuns[run := DagRun(run, tenant, DagRunStatus.Created, input)],
                       plans := s.plans[run := Plan(PlannedTasks(ids, run, tenant, input), 0)],
                       origins := s.origins + PlannedOrigins(ids, run))
    {
      hide Enabled, Apply, PlannedTasks, FreshIds, PlannedOrigins;
      run := dagRunIds.New();
      ids := NewTaskIds();
      NewIdsAreFresh(s, run, ids, old(taskIds.next));
      dagRuns.Save(DagRun(run, tenant, DagRunStatus.Created, input));
      s' := PlanStartStep(cfg, s, run, tenant, input, ids);
    }

    /** Creates a run with five pending tasks in stage order, one repository call at a time. */
    method CreateDagRun(cfg: Config, tenant: TenantId, input: Json.Value, ghost s: State)
      returns (run: DagRunId, ghost ids: seq<TaskId>, ghost path: seq<State>)
      requires Matches(s)
      modifies dagRuns, tasks, dagRunIds, taskIds
      ensures IsPath(cfg, path, Planner) && path[0] == s && Matches(Last(path))
      ensures dagRuns.rows == old(dagRuns.rows)[run := DagRun(run, tenant, DagRunStatus.Created, input)]
      ensures run !in old(dagRuns.rows)
      ensures |ids| == 5 && forall i :: 0 <= i < 5 ==> ids[i] == old(taskIds.next) + i && ids[i] !in old(tasks.rows)
      ensures tasks.rows == old(tasks.rows)
                [ids[0] := Task(ids[0], run, tenant, Extractor, TaskStatus.Pending, input, None)]
                [ids[1] := Task(ids[1], run, tenant, Normalizer, TaskStatus.Pending, Json.Null, None)]
                [ids[2] := Task(ids[2], run, tenant, Chunker, TaskStatus.Pending, Json.Null, None)]
                [ids[3] := Task(ids[3], run, tenant, Embedder, TaskStatus.Pending, Json.Null, None)]
                [ids[4] := Task(ids[4], run, tenant, Indexer, TaskStatus.Pending, Json.Null, None)]
      ensures Last(path).plans == s.plans[run := Plan(PlannedTasks(ids, run, tenant, input), 5)]
    {
      hide Enabled, Apply, IsPath, PlannedOrigins, SavedRows, PlannedTasks;
      run, ids, path := PlanAndSave(cfg, tenant, input, s);
      FiveRows(ids, run, tenant, input, old(tasks.rows));
    }

    /** The run, then its tasks. */
    method PlanAndSave(cfg: Config, tenant: TenantId, input: Json.Value, ghost s: State)
      returns (run: DagRunId, ghost ids: seq<TaskId>, ghost path: seq<State>)
      requires Matches(s)
      modifies dagRuns, tasks, dagRunIds, taskIds
      ensures IsPath(cfg, path, Planner) && path[0] == s && Matches(Last(path))
      ensures dagRuns.rows == old(dagRuns.rows)[run := DagRun(run, tenant, DagRunStatus.Created, input)]
      ensures run !in old(dagRuns.rows)
      ensures |ids| == 5 && forall i :: 0 <= i < 5 ==> ids[i] == old(taskIds.next) + i && ids[i] !in old(tasks.rows)
      ensures tasks.rows == SavedRows(old(tasks.rows), PlannedTasks(ids, run, tenant, input))
      ensures Last(path).plans == s.plans[run := Plan(PlannedTasks(ids, run, tenant, input), 5)]
    {
      hide Enabled, Apply, IsPath, PlannedOrigins, SavedRows, PlannedTasks;
      var newIds;
      ghost var started;
      run, newIds, started := StartPlan(cfg, tenant, input, s);
      ids := newIds;
      OneState(cfg, s, Planner);
      path := Take(cfg, [s], PlanStart(run, tenant, input, ids), started);
      PlannedKeys(ids, run, tenant, input, s.tasks);
      ghost var rest := SaveTasks(cfg, run, PlannedTasks(newIds, run, tenant, input), started);
      path := Join(cfg, path, rest, Planner);
    }

    method NewTaskIds() returns (ids: seq<TaskId>)
      modifies taskIds
      ensures |ids| == 5 && taskIds.next == old(taskIds.next) + 5
      ensures forall i :: 0 <= i < 5 ==> ids[i] == old(taskIds.next) + i
    {
      ids := [];
      for n := 0 to 5
        invariant |ids| == n && (forall i :: 0 <= i < n ==> ids[i] == old(taskIds.next) + i)
        invariant taskIds.next == old(taskIds.next) + n
      {
        var id := taskIds.New();
        ids := ids + [id];
      }
    }

    method SaveTasks(cfg: Config, run: DagRunId, vector: seq<Task>, ghost s: State) returns (ghost path: seq<State>)
      requires tasks.Valid() && tasks.rows == s.tasks
      requires run in s.plans && s.plans[run] == Plan(vector, 0)
      modifies tasks
      ensures tasks.Valid() && tasks.rows == SavedRows(old(tasks.rows), vector)
      ensures IsPath(cfg, path, Planner) && path[0] == s
      ensures Last(path) == s.(tasks := tasks.rows, plans := s.plans[run := Plan(vector, |vector|)], late := Last(path).late)
    {
      hide Enabled, Apply, IsPath, PlanSaveState;
      path := [s];
      OneState(cfg, s, Planner);
      for n := 0 to |vector|
        invariant |path| > 0 && IsPath(cfg, path, Planner) && path[0] == s
        invariant tasks.Valid() && tasks.rows == SavedRows(old(tasks.rows), vector[..n])
        invariant Last(path) == s.(tasks := tasks.rows, plans := s.plans[run := Plan(vector, n)], late := Last(path).late)
      {
        ghost var next := PlanSaveStep(cfg, Last(path), run);
        tasks.Save(vector[n]);
        path := Take(cfg, path, PlanSave(run), next);
        assert vector[..n + 1][..n] == vector[..n];
      }
      assert vector[..|vector|] == vector;
    }
  }

  /** The rows that a plan adds, one by one. */
  lemma FiveRows(ids: seq<TaskId>, run: DagRunId, tenant: TenantId, input: Json.Value, rows: map<TaskId, Task>)
    requires |ids| == 5
    ensures SavedRows(rows, PlannedTasks(ids, run, tenant, input))
            == rows[ids[0] := Task(ids[0], run, tenant, Extractor, TaskStatus.Pending, input, None)]
                   [ids[1] := Task(ids[1], run, tenant, Normalizer, TaskStatus.Pending, Json.Null, None)]
                   [ids[2] := Task(ids[2], run, tenant, Chunker, TaskStatus.Pending, Json.Null, None)]
                   [ids[3] := Task(ids[3], run, tenant, Embedder, TaskStatus.Pending, Json.Null, None)]
                   [ids[4] := Task(ids[4], run, tenant, Indexer, TaskStatus.Pending, Json.Null, None)]
  {
    var v := PlannedTasks(ids, run, tenant, input);
    hide SavedRows;
    SaveAll(rows, v[0], v[1], v[2], v[3], v[4]);
    assert v == [v[0], v[1], v[2], v[3], v[4]];
  }

  lemma SaveAll(rows: map<TaskId, Task>, a: Task, b: Task, c: Task, d: Task, e: Task)
    ensures SavedRows(rows, [a, b, c, d, e]) == rows[a.id := a][b.id := b][c.id := c][d.id := d][e.id := e]
  {
    hide SavedRows;
    SavedSnoc(rows, [], a);
    SavedSnoc(rows, [a], b);
    SavedSnoc(rows, [a, b], c);
    SavedSnoc(rows, [a, b, c], d);
    SavedSnoc(rows, [a, b, c, d], e);
    assert [] + [a] == [a] && [a] + [b] == [a, b] && [a, b] + [c] == [a, b, c];
    assert [a, b, c] + [d] == [a, b, c, d] && [a, b, c, d] + [e] == [a, b, c, d, e];
    NoneSaved(rows);
  }

  lemma SavedSnoc(rows: map<TaskId, Task>, v: seq<Task>, t: Task)
    ensures SavedRows(rows, v + [t]) == SavedRows(rows, v)[t.id := t]
  {
    assert (v + [t])[..|v|] == v;
  }

  lemma NoneSaved(rows: map<TaskId, Task>)
    ensures SavedRows(rows, []) == rows
  {
  }

  lemma OneState(cfg: Config, s: State, actor: Actor)
    ensures IsPath(cfg, [s], actor)
  {
  }

  lemma PlanStartStep(cfg: Config, s: State, run: DagRunId, tenant: TenantId, input: Json.Value, ids: seq<TaskId>)
    returns (s': State)
    requires run !in s.plans && run !in s.dagRuns && |ids| == 5 && FreshIds(s, ids)
    ensures Enabled(cfg, s, PlanStart(run, tenant, input, ids)) && Apply(cfg, s, PlanStart(run, tenant, input, ids)) == s'
    ensures s' == s.(dagRuns := s.dagRuns[run := DagRun(run, tenant, DagRunStatus.Created, input)],
                     plans := s.plans[run := Plan(PlannedTasks(ids, run, tenant, input), 0)],
                     origins := s.origins + PlannedOrigins(ids, run))
  {
    s' := PlanStartState(s, run, tenant, input, ids);
  }

  lemma NewIdsAreFresh(s: State, run: DagRunId, ids: seq<TaskId>, next: nat)
    requires |ids| == 5 && forall i :: 0 <= i < 5 ==> ids[i] == next + i
    requires forall k :: k in s.origins ==> k < next
    ensures FreshIds(s, ids)
    ensures forall k :: k in PlannedOrigins(ids, run) ==> k < next + 5
  {
  }

  /** The rows a plan saves are those of its generated ids. */
  lemma PlannedKeys(ids: seq<TaskId>, run: DagRunId, tenant: TenantId, input: Json.Value, rows: map<TaskId, Task>)
    requires |ids| == 5
    ensures SavedRows(rows, PlannedTasks(ids, run, tenant, input)).Keys == rows.Keys + PlannedOrigins(ids, run).Keys
    ensures forall k :: k in PlannedOrigins(ids, run) <==> k in ids
    ensures |PlannedTasks(ids, run, tenant, input)| == 5
  {
    var v := PlannedTasks(ids, run, tenant, input);
    SavedKeys(rows, v);
    forall k ensures k in ids <==> exists i :: 0 <= i < |v| && v[i].id == k {
      if k in ids {
        var i :| 0 <= i < 5 && ids[i] == k;
        assert v[i].id == k;
      }
    }
  }

  lemma {:induction false} SavedKeys(rows: map<TaskId, Task>, v: seq<Task>)
    ensures forall k :: k in SavedRows(rows, v) <==> k in rows || exists i :: 0 <= i < |v| && v[i].id == k
  {
    if v != [] {
      var front := v[..|v| - 1];
      SavedKeys(rows, front);
      forall k ensures k in SavedRows(rows, v) <==> k in rows || exists i :: 0 <= i < |v| && v[i].id == k {
        if i :| 0 <= i < |front| && front[i].id == k {
          assert v[i].id == k;
        }
      }
    }
  }

  /** Whatever one of these methods passes through, started in a reachable state, is a reachable state. */
  lemma {:induction false} PathStaysReachable(cfg: Config, path: seq<State>, actor: Actor, i: nat)
    requires IsPath(cfg, path, actor) && Reachable(cfg, path[0]) && i < |path|
    ensures Reachable(cfg, path[i])
  {
    hide Reachable, Enabled, Apply;
    if i > 0 {
      PathStaysReachable(cfg, path, actor, i - 1);
      assert Moves(cfg, path[i - 1], path[i - 1 + 1], actor);
      var step :| ActorOf(step) == actor && Enabled(cfg, path[i - 1], step) && path[i] == Apply(cfg, path[i - 1], step);
      Extend(cfg, path[i - 1], step);
    }
  }

  lemma PlanSaveStep(cfg: Config, s: State, run: DagRunId) returns (s': State)
    requires run in s.plans && s.plans[run].saved < |s.plans[run].tasks|
    ensures Enabled(cfg, s, PlanSave(run)) && Apply(cfg, s, PlanSave(run)) == s'
    ensures var p := s.plans[run];
            s' == s.(tasks := s.tasks[p.tasks[p.saved].id := p.tasks[p.saved]], plans := s.plans[run := p.(saved := p.saved + 1)],
                     late := s'.late)
  {
    s' := PlanSaveState(s, run);
  }

  ghost function SavedRows(rows: map<TaskId, Task>, vector: seq<Task>): map<TaskId, Task> {
    if vector == [] then rows
    else SavedRows(rows, vector[..|vector| - 1])[vector[|vector| - 1].id := vector[|vector| - 1]]
  }

  // ----- what a round does -----

  /** The queued tasks that are ready by the rows at the start of the round, in queue order. */
  ghost function ReadyOf(tasks: map<TaskId, Task>, queue: seq<Task>): seq<Task> {
    if queue == [] then []
    else
      var t := queue[|queue| - 1];
      ReadyOf(tasks, queue[..|queue| - 1]) + (if IsReady(t, Siblings(tasks, t.dagRunId)) then [t] else [])
  }

  lemma {:induction false} ReadyAreQueued(tasks: map<TaskId, Task>, queue: seq<Task>)
    ensures forall t :: t in ReadyOf(tasks, queue) ==> t in queue
  {
    if queue != [] {
      ReadyAreQueued(tasks, queue[..|queue| - 1]);
    }
  }

  /** Rows with the given tasks set to Running. */
  ghost function WithRunning(tasks: map<TaskId, Task>, chosen: seq<Task>): map<TaskId, Task> {
    map k | k in tasks :: if tasks[k] in chosen then tasks[k].(status := TaskStatus.Running) else tasks[k]
  }

  /** The request names the task, its attempt and its run, and carries its payload. */
  predicate AsksFor(rt: ReadyTask, task: Task, attempt: TaskRunId) {
    && rt.tenantId == task.tenantId && rt.dagRunId == task.dagRunId && rt.taskId == task.id
    && rt.taskRunId == attempt && rt.kind == task.kind && rt.payload == task.payload
  }

  /** A Running attempt of the task. */
  predicate IsNewAttempt(run: TaskRun, task: Task, id: TaskRunId, attemptNo: nat) {
    && run.id == id && run.taskId == task.id && run.tenantId == task.tenantId
    && run.status.Running? && run.attemptNo == attemptNo && run.error.None?
  }

  /** Each chosen task got one new attempt, numbered by its earlier attempts, and one request, in order. */
  ghost predicate NewAttempts(before: map<TaskRunId, TaskRun>, chosen: seq<Task>, after: map<TaskRunId, TaskRun>, ready: seq<ReadyTask>) {
    && |ready| == |chosen|
    && (forall j :: 0 <= j < |ready| ==>
          && ready[j].taskRunId in after && ready[j].taskRunId !in before
          && IsNewAttempt(after[ready[j].taskRunId], chosen[j], ready[j].taskRunId, |RunsOf(before, chosen[j].id)|)
          && AsksFor(ready[j], chosen[j], ready[j].taskRunId))
    && (forall i, j :: 0 <= i < j < |ready| ==> ready[i].taskRunId != ready[j].taskRunId)
    && (forall q :: q in before ==> q in after && after[q] == before[q])
    && (forall q :: q in after ==> q in before || exists j :: 0 <= j < |ready| && ready[j].taskRunId == q)
  }

  /** A Created run becomes Running, any other stays as it is. */
  function Marked(dagRuns: map<DagRunId, DagRun>, run: DagRunId): map<DagRunId, DagRun> {
    if run in dagRuns && dagRuns[run].status.Created?
    then dagRuns[run := dagRuns[run].(status := DagRunStatus.Running)]
    else dagRuns
  }

  ghost function MarkedAll(dagRuns: map<DagRunId, DagRun>, chosen: seq<Task>): map<DagRunId, DagRun> {
    if chosen == [] then dagRuns
    else Marked(MarkedAll(dagRuns, chosen[..|chosen| - 1]), chosen[|chosen| - 1].dagRunId)
  }

  lemma {:induction false} MarkedRuns(dagRuns: map<DagRunId, DagRun>, chosen: seq<Task>)
    ensures MarkedAll(dagRuns, chosen) == map r | r in dagRuns ::
              if dagRuns[r].status.Created? && exists t :: t in chosen && t.dagRunId == r
              then dagRuns[r].(status := DagRunStatus.Running) else dagRuns[r]
  {
    if chosen != [] {
      var front, last := chosen[..|chosen| - 1], chosen[|chosen| - 1];
      assert chosen == front + [last];
      MarkedRuns(dagRuns, front);
      forall r | r in dagRuns
        ensures (exists t :: t in chosen && t.dagRunId == r) <==> (exists t :: t in front && t.dagRunId == r) || last.dagRunId == r
      {
        if last.dagRunId == r {
          assert last in chosen;
        }
      }
    }
  }

  /** The tasks a round dispatches, in queue order: the queued ones all of whose run's earlier stages are done. */
  lemma ChosenAreReady(tasks: map<TaskId, Task>, queue: seq<Task>) returns (at: seq<nat>)
    ensures |at| == |ReadyOf(tasks, queue)| && forall i, j :: 0 <= i < j < |at| ==> at[i] < at[j]
    ensures forall i :: 0 <= i < |at| ==> at[i] < |queue| && ReadyOf(tasks, queue)[i] == queue[at[i]]
    ensures forall n: nat :: n < |queue| ==>
              (n in at <==>
                && (queue[n].status.Pending? || queue[n].status.Ready?)
                && forall k :: k in tasks && tasks[k].dagRunId == queue[n].dagRunId && StageBefore(tasks[k].kind, queue[n].kind) ==>
                     tasks[k].status.Success? || tasks[k].status.Skipped?)
  {
    hide ReadyOf, IsReady, Siblings, StageBefore;
    at := ChosenAt(tasks, queue);
    forall n: nat | n < |queue|
      ensures n in at <==>
                && (queue[n].status.Pending? || queue[n].status.Ready?)
                && forall k :: k in tasks && tasks[k].dagRunId == queue[n].dagRunId && StageBefore(tasks[k].kind, queue[n].kind) ==>
                     tasks[k].status.Success? || tasks[k].status.Skipped?
    {
      ReadyByStages(tasks, queue[n]);
    }
  }

  /** The places of the chosen tasks in the queue. */
  ghost predicate AreChosenAt(tasks: map<TaskId, Task>, queue: seq<Task>, chosen: seq<Task>, at: seq<nat>) {
    && |at| == |chosen| && (forall i, j :: 0 <= i < j < |at| ==> at[i] < at[j])
    && (forall i :: 0 <= i < |at| ==> at[i] < |queue| && chosen[i] == queue[at[i]])
    && (forall n: nat :: n < |queue| ==> (n in at <==> IsReady(queue[n], Siblings(tasks, queue[n].dagRunId))))
  }

  lemma {:induction false} ChosenAt(tasks: map<TaskId, Task>, queue: seq<Task>) returns (at: seq<nat>)
    ensures AreChosenAt(tasks, queue, ReadyOf(tasks, queue), at)
  {
    hide IsReady, Siblings;
    at := [];
    if queue != [] {
      var front, last := queue[..|queue| - 1], queue[|queue| - 1];
      at := ChosenAt(tasks, front);
      assert queue == front + [last];
      if IsReady(last, Siblings(tasks, last.dagRunId)) {
        ChosenNext(tasks, front, ReadyOf(tasks, front), at, last);
        at := at + [|front|];
      } else {
        NotChosen(tasks, front, ReadyOf(tasks, front), at, last);
        assert ReadyOf(tasks, front) + [] == ReadyOf(tasks, front);
      }
      hide AreChosenAt;
    }
  }

  lemma ChosenNext(tasks: map<TaskId, Task>, queue: seq<Task>, chosen: seq<Task>, at: seq<nat>, t: Task)
    requires AreChosenAt(tasks, queue, chosen, at) && IsReady(t, Siblings(tasks, t.dagRunId))
    ensures AreChosenAt(tasks, queue + [t], chosen + [t], at + [|queue|])
  {
    hide IsReady, Siblings;
    forall n: nat | n < |queue + [t]| ensures n in at + [|queue|] <==> n in at || n == |queue| {
    }
  }

  lemma NotChosen(tasks: map<TaskId, Task>, queue: seq<Task>, chosen: seq<Task>, at: seq<nat>, t: Task)
    requires AreChosenAt(tasks, queue, chosen, at) && !IsReady(t, Siblings(tasks, t.dagRunId))
    ensures AreChosenAt(tasks, queue + [t], chosen, at)
  {
    hide IsReady, Siblings;
  }

  lemma ReadyByStages(tasks: map<TaskId, Task>, t: Task)
    ensures IsReady(t, Siblings(tasks, t.dagRunId)) <==>
              ((t.status.Pending? || t.status.Ready?)
               && forall k :: k in tasks && tasks[k].dagRunId == t.dagRunId && StageBefore(tasks[k].kind, t.kind) ==>
                    tasks[k].status.Success? || tasks[k].status.Skipped?)
  {
    var siblings := Siblings(tasks, t.dagRunId);
    forall k | k in siblings
      ensures StageBefore(siblings[k].kind, t.kind) <==> Ordering(siblings[k].kind) < Ordering(t.kind) && 0 < Ordering(t.kind) < USIZE_MAX
    {
    }
    if IsReady(t, siblings) {
      forall k | k in tasks && tasks[k].dagRunId == t.dagRunId && StageBefore(tasks[k].kind, t.kind)
        ensures tasks[k].status.Success? || tasks[k].status.Skipped?
      {
        assert k in siblings;
      }
    }
  }

  ghost function Cached(cache: map<DagRunId, seq<Task>>): map<DagRunId, map<TaskId, Task>> {
    map r | r in cache :: ById(cache[r])
  }

  class DbScheduler {
    const dagRuns: MemDagRunRepo
    const tasks: MemTaskRepo
    const taskRuns: MemTaskRunRepo
    const cfg: Config
    const runIds: IdSource
    const taskIds: IdSource

    constructor (dagRuns: MemDagRunRepo, tasks: MemTaskRepo, taskRuns: MemTaskRunRepo, cfg: Config,
                 runIds: IdSource, taskIds: IdSource)
      ensures this.dagRuns == dagRuns && this.tasks == tasks && this.taskRuns == taskRuns && this.cfg == cfg
      ensures this.runIds == runIds && this.taskIds == taskIds
    {
      this.dagRuns, this.tasks, this.taskRuns, this.cfg := dagRuns, tasks, taskRuns, cfg;
      this.runIds, this.taskIds := runIds, taskIds;
    }

    /** The repositories hold the machine state's rows, and the id sources are ahead of all ids in use. */
    ghost predicate Matches(s: State)
      reads dagRuns, tasks, taskRuns, runIds, taskIds
    {
      && dagRuns.Valid() && tasks.Valid() && taskRuns.Valid() && runIds != taskIds
      && dagRuns.rows == s.dagRuns && tasks.rows == s.tasks && taskRuns.rows == s.taskRuns
      && (forall q :: q in s.taskRuns ==> q < runIds.next)
      && (forall k :: k in s.origins ==> k < taskIds.next)
      && s.tasks.Keys <= s.origins.Keys
    }

    // ----- schedule_ready_tasks -----

    method MarkDagRunning(run: DagRunId, ghost s: State) returns (ghost path: seq<State>)
      requires Matches(s) && s.pump.pc.GetDag? && s.pump.queue != [] && s.pump.queue[0].dagRunId == run
      modifies dagRuns
      ensures IsPath(cfg, path, PumpLoop) && path[0] == s && Matches(Last(path))
      ensures dagRuns.rows == Marked(old(dagRuns.rows), run)
      ensures Last(path) == s.(dagRuns := dagRuns.rows, pump := Dispatched(s.pump, s.pump.pc.run))
    {
      hide Enabled, Apply, IsPath;
      OneState(cfg, s, PumpLoop);
      PumpSteps(cfg, s);
      path := Take(cfg, [s], PumpGetDag, PumpGetDagState(s));
      var row := dagRuns.Get(run);
      if row.Some? && row.value.status.Created? {
        PumpSteps(cfg, Last(path));
        dagRuns.Save(row.value.(status := DagRunStatus.Running));
        path := Take(cfg, path, PumpSaveDag, PumpSaveDagState(Last(path)));
      }
    }

    /** Starts an attempt of a ready task. */
    method Dispatch(task: Task, ghost s: State) returns (rt: ReadyTask, ghost path: seq<State>)
      requires Matches(s) && s.pump.pc.Count? && s.pump.queue != [] && s.pump.queue[0] == task && task.id in s.tasks
      modifies dagRuns, tasks, taskRuns, runIds
      ensures IsPath(cfg, path, PumpLoop) && path[0] == s && Matches(Last(path))
      ensures rt.taskRunId !in old(taskRuns.rows) && rt.taskRunId in taskRuns.rows
      ensures taskRuns.rows == old(taskRuns.rows)[rt.taskRunId := taskRuns.rows[rt.taskRunId]]
      ensures IsNewAttempt(taskRuns.rows[rt.taskRunId], task, rt.taskRunId, |RunsOf(old(taskRuns.rows), task.id)|)
      ensures AsksFor(rt, task, rt.taskRunId)
      ensures tasks.rows == old(tasks.rows)[task.id := task.(status := TaskStatus.Running)]
      ensures dagRuns.rows == Marked(old(dagRuns.rows), task.dagRunId)
      ensures Last(path).pump == s.pump.(pc := PumpPc.Check, queue := s.pump.queue[1..], ready := s.pump.ready + [rt])
      ensures Last(path) == s.(tasks := tasks.rows, taskRuns := taskRuns.rows, dagRuns := dagRuns.rows,
                               pump := Last(path).pump, early := Last(path).early)
    {
      hide Enabled, Apply, IsPath;
      OneState(cfg, s, PumpLoop);
      var attempts := taskRuns.ListByTask(task.id);
      var id := runIds.New();
      PumpSteps(cfg, s);
      path := Take(cfg, [s], PumpCount(id), PumpCountState(s, id));
      var run := NewRun(task, id, |attempts|);
      PumpSteps(cfg, Last(path));
      taskRuns.Save(run);
      path := Take(cfg, path, PumpSaveRun, PumpSaveRunState(Last(path)));
      PumpSteps(cfg, Last(path));
      tasks.Save(task.(status := TaskStatus.Running));
      path := Take(cfg, path, PumpSaveTask, PumpSaveTaskState(Last(path)));
      ghost var rest := MarkDagRunning(task.dagRunId, Last(path));
      path := Join(cfg, path, rest, PumpLoop);
      rt := Requested(task, run);
    }

    /** The listing of the run's tasks: the one cached in this round, unless missing or empty. */
    method SiblingsOf(cache: map<DagRunId, seq<Task>>, run: DagRunId, ghost s: State) returns (list: seq<Task>)
      requires Matches(s) && s.pump.cache == Cached(cache)
      requires forall r :: r in cache ==> forall i, j :: 0 <= i < j < |cache[r]| ==> cache[r][i].id != cache[r][j].id
      ensures ById(list) == SiblingsUsed(s, run)
      ensures forall i, j :: 0 <= i < j < |list| ==> list[i].id != list[j].id
    {
      list := if run in cache then cache[run] else [];
      ByIdRows(list);
      if list == [] {
        list := tasks.ListByDagRun(run);
      } else {
        assert list[0].id in ById(list);
      }
    }

    /** One iteration of the round: list the siblings, test readiness, start the attempt. */
    method Consider(task: Task, cache: map<DagRunId, seq<Task>>, ready: seq<ReadyTask>, ghost s: State)
      returns (cache': map<DagRunId, seq<Task>>, ready': seq<ReadyTask>, ghost path: seq<State>)
      requires Matches(s) && s.pump.pc.Check? && s.pump.queue != [] && s.pump.queue[0] == task && task.id in s.tasks
      requires s.pump.cache == Cached(cache) && s.pump.ready == ready && ListedOnce(cache)
      modifies dagRuns, tasks, taskRuns, runIds
      ensures IsPath(cfg, path, PumpLoop) && path[0] == s && Matches(Last(path))
      ensures ListedOnce(cache') && Cached(cache') == Cached(cache)[task.dagRunId := SiblingsUsed(s, task.dagRunId)]
      ensures Last(path).pump == Pump(PumpPc.Check, s.pump.queue[1..], Cached(cache'), ready')
      ensures Considered(task, SiblingsUsed(s, task.dagRunId), old(tasks.rows), old(taskRuns.rows), old(dagRuns.rows), ready,
                         tasks.rows, taskRuns.rows, dagRuns.rows, ready')
    {
      hide Enabled, Apply, IsPath, IsReady, Siblings, SiblingsUsed, ById, RunsOf, Marked;
      var siblings := SiblingsOf(cache, task.dagRunId, s);
      cache' := cache[task.dagRunId := siblings];
      assert Cached(cache') == Cached(cache)[task.dagRunId := ById(siblings)];
      PumpSteps(cfg, s);
      OneState(cfg, s, PumpLoop);
      path := Take(cfg, [s], PumpCheck, PumpCheckState(s));
      var isReady := IsReadyAmong(task, siblings);
      ready' := ready;
      if isReady {
        var rt;
        ghost var rest;
        rt, rest := Dispatch(task, Last(path));
        path := Join(cfg, path, rest, PumpLoop);
        ready' := ready + [rt];
      }
    }

    method ScheduleReadyTasks(ghost s: State) returns (ready: seq<ReadyTask>, ghost queue: seq<Task>, ghost path: seq<State>)
      requires Matches(s) && s.pump == IDLE_PUMP
      modifies dagRuns, tasks, taskRuns, runIds
      ensures IsPath(cfg, path, PumpLoop) && path[0] == s && Matches(Last(path))
      ensures Last(path).pump.pc.Publish? && Last(path).pump.ready == ready
      ensures IsPendingList(cfg, old(tasks.rows), queue)
      ensures NewAttempts(old(taskRuns.rows), ReadyOf(old(tasks.rows), queue), taskRuns.rows, ready)
      ensures |ready| == |ReadyOf(old(tasks.rows), queue)|
      ensures forall j :: 0 <= j < |ready| ==>
                var task, rt := ReadyOf(old(tasks.rows), queue)[j], ready[j];
                && rt.tenantId == task.tenantId && rt.dagRunId == task.dagRunId && rt.taskId == task.id
                && rt.kind == task.kind && rt.payload == task.payload
                && rt.taskRunId in taskRuns.rows && rt.taskRunId !in old(taskRuns.rows)
                && taskRuns.rows[rt.taskRunId].taskId == task.id && taskRuns.rows[rt.taskRunId].status.Running?
      ensures tasks.rows == map k | k in old(tasks.rows) ::
                if old(tasks.rows)[k] in ReadyOf(old(tasks.rows), queue) then old(tasks.rows)[k].(status := TaskStatus.Running)
                else old(tasks.rows)[k]
      ensures dagRuns.rows == map r | r in old(dagRuns.rows) ::
                if old(dagRuns.rows)[r].status.Created? && exists t :: t in ReadyOf(old(tasks.rows), queue) && t.dagRunId == r
                then old(dagRuns.rows)[r].(status := DagRunStatus.Running) else old(dagRuns.rows)[r]
    {
      hide Enabled, Apply, IsPath, IsPendingList, RoundSoFar, Considered, ReadyOf, MarkedAll, NewAttempts, WithRunning;
      ghost var tasks0, runs0, dags0 := tasks.rows, taskRuns.rows, dagRuns.rows;
      var pending := tasks.ListPending(cfg);
      queue := pending;
      ghost var at := PumpListStep(cfg, s, queue);
      OneState(cfg, s, PumpLoop);
      path := Take(cfg, [s], PumpList(queue), at);
      QueueRows(cfg, tasks0, queue);
      var cache: map<DagRunId, seq<Task>> := map[];
      ready := [];
      RoundBegins(tasks0, runs0, dags0, queue);
      for n := 0 to |pending|
        invariant |path| > 0 && IsPath(cfg, path, PumpLoop) && path[0] == s && Last(path) == at && Matches(at)
        invariant at.pump == Pump(PumpPc.Check, queue[n..], Cached(cache), ready) && ListedOnce(cache)
        invariant RoundSoFar(tasks0, runs0, dags0, queue[..n], Cached(cache), tasks.rows, taskRuns.rows, dagRuns.rows, ready)
      {
        ghost var before, ready0, cache0 := at, ready, Cached(cache);
        ghost var rest;
        assert queue[n..][0] == queue[n] && queue[n..][1..] == queue[n + 1..];
        StillStored(tasks0, runs0, dags0, queue[..n], Cached(cache), tasks.rows, taskRuns.rows, dagRuns.rows, ready);
        cache, ready, rest := Consider(pending[n], cache, ready, at);
        path := Join(cfg, path, rest, PumpLoop);
        at := Last(path);
        RoundGoesOn(tasks0, runs0, dags0, queue, n, before, ready0, at, ready);
      }
      assert queue[|queue|..] == [];
      assert queue[..|queue|] == queue;
      RoundEnds(tasks0, runs0, dags0, queue, Cached(cache), tasks.rows, taskRuns.rows, dagRuns.rows, ready);
      PumpSteps(cfg, at);
      path := Take(cfg, path, PumpCheck, PumpCheckState(at));
    }

    // ----- handle_worker_status -----

    /** Refreshes the run's status from its tasks, writing only when it differs. */
    method RefreshDagRun(run: DagRunId, ghost s: State) returns (ghost path: seq<State>)
      requires Matches(s) && s.listener.GetDag? && s.listener.m.dagRunId == run
      modifies dagRuns
      ensures IsPath(cfg, path, ListenLoop) && path[0] == s && Matches(Last(path))
      ensures dagRuns.rows == Refreshed(old(dagRuns.rows), tasks.rows, run)
      ensures Last(path) == s.(dagRuns := dagRuns.rows, late := Last(path).late, listener := Listener.Idle)
    {
      hide Enabled, Apply, IsPath, DerivedStatus, DagStatusFromTasks;
      OneState(cfg, s, ListenLoop);
      ListenSteps(cfg, s);
      path := Take(cfg, [s], ListenGetDag, ListenGetDagState(s));
      var row := dagRuns.Get(run);
      if row.Some? {
        ghost var rest := WriteDerived(row.value, Last(path));
        path := Join(cfg, path, rest, ListenLoop);
      }
    }

    /** Lists the run's tasks and writes the derived status if it differs. */
    method WriteDerived(dag: DagRun, ghost s: State) returns (ghost path: seq<State>)
      requires Matches(s) && s.listener.ListTasks? && s.listener.dag == dag
      requires s.listener.m.dagRunId == dag.id && dag.id in s.dagRuns && s.dagRuns[dag.id] == dag
      modifies dagRuns
      ensures IsPath(cfg, path, ListenLoop) && path[0] == s && Matches(Last(path))
      ensures dagRuns.rows == Refreshed(old(dagRuns.rows), tasks.rows, dag.id)
      ensures Last(path) == s.(dagRuns := dagRuns.rows, late := Last(path).late, listener := Listener.Idle)
    {
      hide Enabled, Apply, IsPath, DerivedStatus, DagStatusFromTasks;
      OneState(cfg, s, ListenLoop);
      var list := tasks.ListByDagRun(dag.id);
      var statuses := seq(|list|, i requires 0 <= i < |list| => list[i].status);
      ListedStatus(tasks.rows, dag.id, list);
      var status := DagStatusFromTasks(statuses);
      ListenSteps(cfg, s);
      path := Take(cfg, [s], ListenTasks, ListenTasksState(s));
      if status != dag.status {
        ListenSteps(cfg, Last(path));
        dagRuns.Save(dag.(status := status));
        path := Take(cfg, path, ListenSaveDag, ListenSaveDagState(Last(path)));
      } else {
        assert dagRuns.rows[dag.id := dag] == dagRuns.rows;
      }
    }

    /** The embedder tasks for the chunk sets in an output: new ids for the entries that parse, the others skipped. */
    method ExtractEmbedTasks(output: Json.Value, run: DagRunId, tenant: TenantId) returns (found: Option<seq<Task>>, ghost ids: seq<TaskId>)
      modifies taskIds
      ensures found.Some? == ChunkSets(Some(output)).Some?
      ensures found.None? ==> ids == []
      ensures found.Some? ==>
                var uuids := ParsedUuids(cfg, ChunkSets(Some(output)).value);
                |ids| == |uuids| && found.value == EmbedTasks(uuids, ids, run, tenant) && forall t :: t in found.value ==> t.id in ids
      ensures taskIds.next == old(taskIds.next) + |ids|
      ensures forall i :: 0 <= i < |ids| ==> ids[i] == old(taskIds.next) + i
    {
      ids := [];
      var list := ChunkSets(Some(output));
      if list.None? {
        return None, ids;
      }
      var created: seq<Task> := [];
      for n := 0 to |list.value|
        invariant |ids| == |ParsedUuids(cfg, list.value[..n])|
        invariant created == EmbedTasks(ParsedUuids(cfg, list.value[..n]), ids, run, tenant)
        invariant taskIds.next == old(taskIds.next) + |ids|
        invariant forall i :: 0 <= i < |ids| ==> ids[i] == old(taskIds.next) + i
      {
        hide ChunkSets;
        ParsedSnoc(cfg, list.value[..n], list.value[n]);
        assert list.value[..n + 1] == list.value[..n] + [list.value[n]];
        var entry := list.value[n];
        if entry.String? && cfg.parseUuid(entry.text).Some? {
          var id := taskIds.New();
          created := created + [Task(id, run, tenant, Embedder, TaskStatus.Pending,
                                     Json.Object([Json.Entry("chunk_set_id", Json.String(cfg.parseUuid(entry.text).value))]), None)];
          ids := ids + [id];
        }
      }
      assert list.value[..|list.value|] == list.value;
      return Some(created), ids;
    }

    method SaveEmbedTasks(created: seq<Task>, ghost s: State) returns (ghost path: seq<State>)
      requires Matches(s) && s.listener.FanOut? && s.listener.rest == created && forall t :: t in created ==> t.id in s.origins
      modifies tasks
      ensures IsPath(cfg, path, ListenLoop) && path[0] == s && Matches(Last(path))
      ensures tasks.rows == SavedRows(old(tasks.rows), created)
      ensures Last(path) == s.(tasks := tasks.rows, listener := Listener.GetDag(s.listener.m))
    {
      hide Enabled, Apply, IsPath, SavedRows;
      path := [s];
      OneState(cfg, s, ListenLoop);
      NoneSaved(tasks.rows);
      for n := 0 to |created|
        invariant |path| > 0 && IsPath(cfg, path, ListenLoop) && path[0] == s
        invariant tasks.Valid() && tasks.rows == SavedRows(old(tasks.rows), created[..n]) && tasks.rows.Keys <= s.origins.Keys
        invariant Last(path) == s.(tasks := tasks.rows, listener := Listener.FanOut(s.listener.m, created[n..]))
      {
        ListenSteps(cfg, Last(path));
        assert created[n] in created;
        tasks.Save(created[n]);
        path := Take(cfg, path, ListenFanOut, ListenFanOutState(Last(path)));
        SavedSnoc(old(tasks.rows), created[..n], created[n]);
        assert created[..n + 1] == created[..n] + [created[n]];
        assert created[n..][1..] == created[n + 1..];
      }
      assert created[..|created|] == created;
      ListenSteps(cfg, Last(path));
      path := Take(cfg, path, ListenFanOut, ListenFanOutState(Last(path)));
    }

    /** Stores a success: the task's row, then the rows it fans out. */
    method StoreSuccess(m: WorkerStatus, row: Task, ghost s: State) returns (ghost path: seq<State>, ghost ids: seq<TaskId>)
      requires Matches(s) && m.Success? && m.taskId in s.tasks && s.tasks[m.taskId] == row
      requires s.listener == Listener.SaveTask(m, ClosedTask(cfg, m, 0, row))
      modifies tasks, taskIds
      ensures IsPath(cfg, path, ListenLoop) && path[0] == s && Matches(Last(path))
      ensures Last(path) == s.(tasks := tasks.rows, listener := Listener.GetDag(m), origins := Last(path).origins)
      ensures forall i :: 0 <= i < |ids| ==> ids[i] == old(taskIds.next) + i
      ensures Stored(cfg, m, ids, 0, old(tasks.rows), tasks.rows)
    {
      hide Enabled, Apply, IsPath, ChunkSets, ParsedUuids, EmbedTasks, SavedRows, AfterSaveTask, FanOutIds, FannedOutOrigins;
      var task := ClosedTask(cfg, m, 0, row);
      tasks.Save(task);
      var created: Option<seq<Task>> := None;
      ids := [];
      if m.output.Some? {
        created, ids := ExtractEmbedTasks(m.output.value, m.dagRunId, task.tenantId);
      }
      NoOutputNoSets(m);
      SuccessFanOut(cfg, s, m, task.tenantId, ids);
      ghost var next := ListenSaveTaskStep(cfg, s, ids);
      OneState(cfg, s, ListenLoop);
      path := Take(cfg, [s], ListenSaveTask(ids), next);
      if created.Some? {
        ghost var saved := SaveEmbedTasks(created.value, next);
        path := Join(cfg, path, saved, ListenLoop);
      }
    }

    /** A success: close the attempt's task, save the fanned-out tasks, refresh the run. */
    method FinishSuccess(m: WorkerStatus, ghost s: State) returns (ghost path: seq<State>, ghost ids: seq<TaskId>)
      requires Matches(s) && s.listener == Listener.GetTask(m) && m.Success?
      modifies dagRuns, tasks, taskIds
      ensures IsPath(cfg, path, ListenLoop) && path[0] == s && Matches(Last(path))
      ensures Last(path) == s.(dagRuns := dagRuns.rows, tasks := tasks.rows, listener := Listener.Idle, origins := Last(path).origins,
                               late := Last(path).late)
      ensures forall i :: 0 <= i < |ids| ==> ids[i] == old(taskIds.next) + i
      ensures Finished(cfg, m, ids, 0, old(tasks.rows), old(dagRuns.rows), tasks.rows, dagRuns.rows)
    {
      hide Enabled, Apply, IsPath, Stored, ClosedTask, Refreshed;
      OneState(cfg, s, ListenLoop);
      ListenSteps(cfg, s);
      path := Take(cfg, [s], ListenGetTask, ListenGetTaskState(cfg, s));
      ids := [];
      var row := tasks.Get(m.taskId);
      if row.None? {
        return;
      }
      ghost var stored, refreshed;
      stored, ids := StoreSuccess(m, row.value, Last(path));
      path := Join(cfg, path, stored, ListenLoop);
      refreshed := RefreshDagRun(m.dagRunId, Last(path));
      path := Join(cfg, path, refreshed, ListenLoop);
    }

    /** Stores a failure: the task goes back to Pending or is Failed. */
    method StoreFailure(m: WorkerStatus, row: Task, ghost s: State) returns (ghost path: seq<State>)
      requires Matches(s) && m.Failed? && m.taskId in s.tasks && s.tasks[m.taskId] == row
      requires s.listener == Listener.Count(m, row)
      modifies tasks
      ensures IsPath(cfg, path, ListenLoop) && path[0] == s && Matches(Last(path))
      ensures Last(path) == s.(tasks := tasks.rows, listener := Listener.GetDag(m))
      ensures Stored(cfg, m, [], |RunsOf(taskRuns.rows, m.taskId)|, old(tasks.rows), tasks.rows)
    {
      hide Enabled, Apply, IsPath, AfterSaveTask, FanOutIds, FannedOutOrigins;
      OneState(cfg, s, ListenLoop);
      var attempts := taskRuns.ListByTask(m.taskId);
      ListenSteps(cfg, s);
      path := Take(cfg, [s], ListenCount, ListenCountState(cfg, s));
      tasks.Save(ClosedTask(cfg, m, |attempts|, row));
      FailureHasNoIds(cfg, Last(path), m);
      ghost var next := ListenSaveTaskStep(cfg, Last(path), []);
      path := Take(cfg, path, ListenSaveTask([]), next);
    }

    /** A failure: retry the attempt's task or fail it, refresh the run. */
    method FinishFailure(m: WorkerStatus, ghost s: State) returns (ghost path: seq<State>)
      requires Matches(s) && s.listener == Listener.GetTask(m) && m.Failed?
      modifies dagRuns, tasks
      ensures IsPath(cfg, path, ListenLoop) && path[0] == s && Matches(Last(path))
      ensures Last(path) == s.(dagRuns := dagRuns.rows, tasks := tasks.rows, listener := Listener.Idle, late := Last(path).late)
      ensures Finished(cfg, m, [], |RunsOf(taskRuns.rows, m.taskId)|, old(tasks.rows), old(dagRuns.rows), tasks.rows, dagRuns.rows)
    {
      hide Enabled, Apply, IsPath, Stored, ClosedTask, Refreshed;
      OneState(cfg, s, ListenLoop);
      ListenSteps(cfg, s);
      path := Take(cfg, [s], ListenGetTask, ListenGetTaskState(cfg, s));
      var row := tasks.Get(m.taskId);
      if row.Some? {
        ghost var stored := StoreFailure(m, row.value, Last(path));
        path := Join(cfg, path, stored, ListenLoop);
      }
      ghost var refreshed := RefreshDagRun(m.dagRunId, Last(path));
      path := Join(cfg, path, refreshed, ListenLoop);
    }

    /** `handle_worker_status`: a result for an unknown or closed attempt changes nothing; any other closes the attempt
        and updates its task and run. */
    method HandleWorkerStatus(m: WorkerStatus, ghost s: State) returns (ghost path: seq<State>, ghost ids: seq<TaskId>)
      requires Matches(s) && s.listener == Listener.GetRun(m)
      modifies dagRuns, tasks, taskRuns, taskIds
      ensures IsPath(cfg, path, ListenLoop) && path[0] == s && Matches(Last(path))
      ensures Last(path) == s.(dagRuns := dagRuns.rows, tasks := tasks.rows, taskRuns := taskRuns.rows,
                               listener := Listener.Idle, origins := Last(path).origins, late := Last(path).late)
      ensures forall i :: 0 <= i < |ids| ==> ids[i] == old(taskIds.next) + i
      // an unknown or closed attempt
      ensures !OpenIn(old(taskRuns.rows), m.taskRunId) ==>
                taskRuns.rows == old(taskRuns.rows) && tasks.rows == old(tasks.rows) && dagRuns.rows == old(dagRuns.rows) && ids == []
      // an open one: the attempt
      ensures OpenIn(old(taskRuns.rows), m.taskRunId) ==>
                taskRuns.rows == old(taskRuns.rows)[m.taskRunId := old(taskRuns.rows)[m.taskRunId].(
                  status := if m.Success? then TaskRunStatus.Success else TaskRunStatus.Failed,
                  error := if m.Success? then None else Some(m.error))]
      // its task
      ensures OpenIn(old(taskRuns.rows), m.taskRunId) && m.taskId in old(tasks.rows) && m.Success? ==>
                m.taskId in tasks.rows && tasks.rows[m.taskId]
                == old(tasks.rows)[m.taskId].(status := TaskStatus.Success, result := m.output)
      ensures OpenIn(old(taskRuns.rows), m.taskRunId) && m.taskId in old(tasks.rows) && m.Failed? ==>
                && m.taskId in tasks.rows
                && var before, after := old(tasks.rows)[m.taskId], tasks.rows[m.taskId];
                   if |RunsOf(taskRuns.rows, m.taskId)| < cfg.maxAttempts then after == before.(status := TaskStatus.Pending)
                   else
                     && after == before.(status := TaskStatus.Failed, result := after.result) && after.result.Some?
                     && Json.Get(after.result.value, "error") == Some(Json.String(m.error))
                     && Json.Get(after.result.value, "error_kind")
                        == Some(if m.errorKind.None? then Json.Null else Json.String(m.errorKind.value))
      // the tasks it fans out, and all others
      ensures ids != [] ==> m.Success? && m.output.Some? && m.taskId in old(tasks.rows)
      ensures OpenIn(old(taskRuns.rows), m.taskRunId) && m.taskId in old(tasks.rows) && m.Success? ==>
                var uuids := ListedUuids(cfg, m.output);
                && |ids| == |uuids|
                && forall i :: 0 <= i < |ids| ==>
                     && ids[i] !in old(tasks.rows) && ids[i] in tasks.rows
                     && var row := tasks.rows[ids[i]];
                        && row.id == ids[i] && row.dagRunId == m.dagRunId && row.tenantId == old(tasks.rows)[m.taskId].tenantId
                        && row.kind.Embedder? && row.status.Pending? && row.result.None?
                        && row.payload == Json.Object([Json.Entry("chunk_set_id", Json.String(uuids[i]))])
      ensures forall k :: k in tasks.rows <==> k in old(tasks.rows) || k in ids
      ensures forall k :: k in old(tasks.rows) && k != m.taskId ==> tasks.rows[k] == old(tasks.rows)[k]
      // its run
      ensures forall r :: r in dagRuns.rows <==> r in old(dagRuns.rows)
      ensures forall r :: r in old(dagRuns.rows) && r != m.dagRunId ==> dagRuns.rows[r] == old(dagRuns.rows)[r]
      ensures OpenIn(old(taskRuns.rows), m.taskRunId) && m.dagRunId in old(dagRuns.rows) ==>
                var before, after := old(dagRuns.rows)[m.dagRunId], dagRuns.rows[m.dagRunId];
                if m.Success? && m.taskId !in old(tasks.rows) then after == before
                else after == before.(status := after.status) && IsStatusOf(after.status, tasks.rows, m.dagRunId)
    {
      hide Enabled, Apply, IsPath, Finished, ListedUuids, RunsOf, IsStatusOf, Json.Get;
      OneState(cfg, s, ListenLoop);
      ListenSteps(cfg, s);
      path := Take(cfg, [s], ListenGetRun, ListenGetRunState(s));
      ids := [];
      var row := taskRuns.Get(m.taskRunId);
      if row.None? || row.value.status.IsTerminal() {
        return;
      }
      ghost var rest;
      rest, ids := CloseAttempt(m, row.value, Last(path));
      path := Join(cfg, path, rest, ListenLoop);
      FinishedRows(cfg, m, ids, if m.Success? then 0 else |RunsOf(taskRuns.rows, m.taskId)|, old(taskIds.next),
                   old(tasks.rows), old(dagRuns.rows), tasks.rows, dagRuns.rows);
    }

    /** Closes an open attempt, then its task. */
    method CloseAttempt(m: WorkerStatus, run: TaskRun, ghost s: State) returns (ghost path: seq<State>, ghost ids: seq<TaskId>)
      requires Matches(s) && s.listener == Listener.SaveRun(m, ClosedRun(m, run))
      requires m.taskRunId in s.taskRuns && s.taskRuns[m.taskRunId] == run
      modifies dagRuns, tasks, taskRuns, taskIds
      ensures IsPath(cfg, path, ListenLoop) && path[0] == s && Matches(Last(path))
      ensures Last(path) == s.(dagRuns := dagRuns.rows, tasks := tasks.rows, taskRuns := taskRuns.rows,
                               listener := Listener.Idle, origins := Last(path).origins, late := Last(path).late)
      ensures forall i :: 0 <= i < |ids| ==> ids[i] == old(taskIds.next) + i
      ensures taskRuns.rows == old(taskRuns.rows)[m.taskRunId := run.(
                status := if m.Success? then TaskRunStatus.Success else TaskRunStatus.Failed,
                error := if m.Success? then None else Some(m.error))]
      ensures Finished(cfg, m, ids, if m.Success? then 0 else |RunsOf(taskRuns.rows, m.taskId)|,
                       old(tasks.rows), old(dagRuns.rows), tasks.rows, dagRuns.rows)
    {
      hide Enabled, Apply, IsPath, Finished;
      taskRuns.Save(ClosedRun(m, run));
      OneState(cfg, s, ListenLoop);
      ListenSteps(cfg, s);
      path := Take(cfg, [s], ListenSaveRun, ListenSaveRunState(s));
      ghost var rest;
      ids := [];
      if m.Success? {
        rest, ids := FinishSuccess(m, Last(path));
      } else {
        rest := FinishFailure(m, Last(path));
      }
      path := Join(cfg, path, rest, ListenLoop);
    }
  }

  /** The attempt is stored and not closed. */
  ghost predicate OpenIn(taskRuns: map<TaskRunId, TaskRun>, q: TaskRunId) {
    q in taskRuns && (taskRuns[q].status.Created? || taskRuns[q].status.Running?)
  }

  /** Failed if a task of the run is; else Success if all are Success or Skipped; else Running. */
  ghost predicate IsStatusOf(status: DagRunStatus, tasks: map<TaskId, Task>, run: DagRunId) {
    && (status.Failed? <==> exists k :: k in tasks && tasks[k].dagRunId == run && tasks[k].status.Failed?)
    && (status.Success? <==> forall k :: k in tasks && tasks[k].dagRunId == run ==> tasks[k].status.Success? || tasks[k].status.Skipped?)
    && (status.Failed? || status.Success? || status.Running?)
  }

  /** The entries that are UUIDs, in order; others are skipped. */
  lemma {:induction false} ParsedAt(cfg: Config, list: seq<Json.Value>) returns (at: seq<nat>)
    ensures |at| == |ParsedUuids(cfg, list)| && forall i, j :: 0 <= i < j < |at| ==> at[i] < at[j]
    ensures forall i :: 0 <= i < |at| ==>
              && at[i] < |list| && list[at[i]].String?
              && cfg.parseUuid(list[at[i]].text) == Some(ParsedUuids(cfg, list)[i])
    ensures forall n: nat :: n < |list| && list[n].String? && cfg.parseUuid(list[n].text).Some? ==> n in at
  {
    at := [];
    if list != [] {
      var last := |list| - 1;
      var front := list[..last];
      at := ParsedAt(cfg, front);
      assert list == front + [list[last]];
      ParsedSnoc(cfg, front, list[last]);
      if list[last].String? && cfg.parseUuid(list[last].text).Some? {
        at := at + [last];
      }
    }
  }

  lemma {:induction false} SavedRowsAre(rows: map<TaskId, Task>, v: seq<Task>)
    requires forall i, j :: 0 <= i < j < |v| ==> v[i].id != v[j].id
    ensures forall i :: 0 <= i < |v| ==> v[i].id in SavedRows(rows, v) && SavedRows(rows, v)[v[i].id] == v[i]
    ensures forall k :: k in rows && (forall i :: 0 <= i < |v| ==> v[i].id != k) ==>
              k in SavedRows(rows, v) && SavedRows(rows, v)[k] == rows[k]
  {
    if v != [] {
      var front, last := v[..|v| - 1], v[|v| - 1];
      SavedRowsAre(rows, front);
      forall i | 0 <= i < |v| ensures v[i].id in SavedRows(rows, v) && SavedRows(rows, v)[v[i].id] == v[i] {
        if i < |front| {
          assert front[i] == v[i];
        }
      }
      forall k | k in rows && (forall i :: 0 <= i < |v| ==> v[i].id != k)
        ensures k in SavedRows(rows, v) && SavedRows(rows, v)[k] == rows[k]
      {
        assert forall i :: 0 <= i < |front| ==> front[i] == v[i];
      }
    }
  }

  /** What handling a result leaves in the rows, field by field. */
  lemma FinishedRows(cfg: Config, m: WorkerStatus, ids: seq<TaskId>, attempts: nat, next: nat,
                     tasks: map<TaskId, Task>, dagRuns: map<DagRunId, DagRun>,
                     tasks': map<TaskId, Task>, dagRuns': map<DagRunId, DagRun>)
    requires Finished(cfg, m, ids, attempts, tasks, dagRuns, tasks', dagRuns')
    requires (forall k :: k in tasks ==> k < next) && forall i :: 0 <= i < |ids| ==> ids[i] == next + i
    ensures m.taskId in tasks && m.Success? ==>
              m.taskId in tasks' && tasks'[m.taskId] == tasks[m.taskId].(status := TaskStatus.Success, result := m.output)
    ensures m.taskId in tasks && m.Failed? ==>
              && m.taskId in tasks'
              && var before, after := tasks[m.taskId], tasks'[m.taskId];
                 if attempts < cfg.maxAttempts then after == before.(status := TaskStatus.Pending)
                 else
                   && after == before.(status := TaskStatus.Failed, result := after.result) && after.result.Some?
                   && Json.Get(after.result.value, "error") == Some(Json.String(m.error))
                   && Json.Get(after.result.value, "error_kind")
                      == Some(if m.errorKind.None? then Json.Null else Json.String(m.errorKind.value))
    ensures ids != [] ==> m.Success? && m.output.Some? && m.taskId in tasks
    ensures m.taskId in tasks && m.Success? ==>
              var uuids := ListedUuids(cfg, m.output);
              && |ids| == |uuids|
              && forall i :: 0 <= i < |ids| ==>
                   && ids[i] !in tasks && ids[i] in tasks'
                   && var row := tasks'[ids[i]];
                      && row.id == ids[i] && row.dagRunId == m.dagRunId && row.tenantId == tasks[m.taskId].tenantId
                      && row.kind.Embedder? && row.status.Pending? && row.result.None?
                      && row.payload == Json.Object([Json.Entry("chunk_set_id", Json.String(uuids[i]))])
    ensures forall k :: k in tasks' <==> k in tasks || k in ids
    ensures forall k :: k in tasks && k != m.taskId ==> tasks'[k] == tasks[k]
    ensures forall r :: r in dagRuns' <==> r in dagRuns
    ensures forall r :: r in dagRuns && r != m.dagRunId ==> dagRuns'[r] == dagRuns[r]
    ensures m.dagRunId in dagRuns ==>
              var before, after := dagRuns[m.dagRunId], dagRuns'[m.dagRunId];
              if m.Success? && m.taskId !in tasks then after == before
              else after == before.(status := after.status) && IsStatusOf(after.status, tasks', m.dagRunId)
  {
    hide SavedRows, DerivedStatus, IsStatusOf, ListedUuids, EmbedTasks, ChunkSets, Json.Get;
    RefreshedRow(dagRuns, tasks', m.dagRunId);
    if m.taskId in tasks {
      match m
      case Success(_, _, _, output) =>
        ListedAre(cfg, output);
        NothingSaved(tasks[m.taskId := tasks[m.taskId].(status := TaskStatus.Success, result := output)], m.dagRunId,
                     tasks[m.taskId].tenantId, ids, ListedUuids(cfg, output));
        var rows := tasks[m.taskId := tasks[m.taskId].(status := TaskStatus.Success, result := output)];
        SavedFanOut(cfg, m, ids, next, rows, tasks[m.taskId].tenantId, tasks');
      case Failed(_, _, _, error, errorKind) =>
        ErrorFields(error, if errorKind.None? then Json.Null else Json.String(errorKind.value));
    }
  }

  lemma NothingSaved(rows: map<TaskId, Task>, run: DagRunId, tenant: TenantId, ids: seq<TaskId>, uuids: seq<string>)
    ensures |ids| == |uuids| && ids == [] ==> SavedRows(rows, EmbedTasks(uuids, ids, run, tenant)) == rows
  {
  }

  lemma ErrorFields(error: string, kind: Json.Value)
    ensures var v := Json.Object([Json.Entry("error", Json.String(error)), Json.Entry("error_kind", kind)]);
            Json.Get(v, "error") == Some(Json.String(error)) && Json.Get(v, "error_kind") == Some(kind)
  {
    var entries := [Json.Entry("error", Json.String(error)), Json.Entry("error_kind", kind)];
    assert "error" != "error_kind" by { assert |"error"| != |"error_kind"|; }
    assert entries[1..] == [Json.Entry("error_kind", kind)];
    assert Json.Lookup(entries[1..], "error_kind") == Some(kind);
  }

  /** The rows that a success adds. */
  lemma SavedFanOut(cfg: Config, m: WorkerStatus, ids: seq<TaskId>, next: nat, rows: map<TaskId, Task>, tenant: TenantId,
                    tasks': map<TaskId, Task>)
    requires m.Success? && |ids| == |ListedUuids(cfg, m.output)|
    requires tasks' == if ids == [] then rows else SavedRows(rows, EmbedTasks(ListedUuids(cfg, m.output), ids, m.dagRunId, tenant))
    requires (forall k :: k in rows ==> k < next) && forall i :: 0 <= i < |ids| ==> ids[i] == next + i
    ensures forall i :: 0 <= i < |ids| ==>
              && ids[i] !in rows && ids[i] in tasks'
              && var row := tasks'[ids[i]];
                 && row.id == ids[i] && row.dagRunId == m.dagRunId && row.tenantId == tenant
                 && row.kind.Embedder? && row.status.Pending? && row.result.None?
                 && row.payload == Json.Object([Json.Entry("chunk_set_id", Json.String(ListedUuids(cfg, m.output)[i]))])
    ensures forall k :: k in tasks' <==> k in rows || k in ids
    ensures forall k :: k in rows ==> tasks'[k] == rows[k]
  {
    hide ListedUuids, SavedRows;
    if ids != [] {
      var created := EmbedTasks(ListedUuids(cfg, m.output), ids, m.dagRunId, tenant);
      assert forall i :: 0 <= i < |ids| ==> created[i].id == ids[i];
      SavedRowsAre(rows, created);
      SavedKeys(rows, created);
    }
  }

  lemma RefreshedRow(dagRuns: map<DagRunId, DagRun>, tasks: map<TaskId, Task>, run: DagRunId)
    ensures run in dagRuns ==>
              var after := Refreshed(dagRuns, tasks, run)[run];
              after == dagRuns[run].(status := after.status) && IsStatusOf(after.status, tasks, run)
  {
  }

  lemma NoOutputNoSets(m: WorkerStatus)
    ensures m.Success? && m.output.None? ==> ChunkSets(m.output).None?
    ensures m.Success? && m.output.Some? ==> Some(m.output.value) == m.output
  {
  }

  lemma FailureHasNoIds(cfg: Config, s: State, m: WorkerStatus)
    requires m.Failed?
    ensures FanOutIds(cfg, s, m, [])
    ensures forall tenant :: AfterSaveTask(cfg, s, m, tenant, []) == Listener.GetDag(m)
    ensures forall run :: s.origins + FannedOutOrigins([], run) == s.origins
  {
  }

  lemma SuccessFanOut(cfg: Config, s: State, m: WorkerStatus, tenant: TenantId, ids: seq<TaskId>)
    requires m.Success? && FreshIds(s, ids)
    requires if ChunkSets(m.output).Some? then |ids| == |ParsedUuids(cfg, ChunkSets(m.output).value)| else ids == []
    ensures FanOutIds(cfg, s, m, ids)
    ensures AfterSaveTask(cfg, s, m, tenant, ids)
            == if ChunkSets(m.output).Some?
               then Listener.FanOut(m, EmbedTasks(ParsedUuids(cfg, ChunkSets(m.output).value), ids, m.dagRunId, tenant))
               else Listener.GetDag(m)
    ensures forall k :: k in s.origins + FannedOutOrigins(ids, m.dagRunId) <==> k in s.origins || k in ids
  {
    hide ChunkSets, ParsedUuids, EmbedTasks;
  }

  lemma {:induction false} ParsedSnoc(cfg: Config, list: seq<Json.Value>, v: Json.Value)
    ensures ParsedUuids(cfg, list + [v])
            == ParsedUuids(cfg, list)
               + (if v.String? && cfg.parseUuid(v.text).Some? then [cfg.parseUuid(v.text).value] else [])
  {
    if list != [] {
      assert (list + [v])[1..] == list[1..] + [v];
      ParsedSnoc(cfg, list[1..], v);
    }
  }

  /** The run's row with the status its tasks derive. */
  ghost function Refreshed(dagRuns: map<DagRunId, DagRun>, tasks: map<TaskId, Task>, run: DagRunId): map<DagRunId, DagRun> {
    if run in dagRuns then dagRuns[run := dagRuns[run].(status := DerivedStatus(tasks, run))] else dagRuns
  }

  /** What result m does to the rows when its task is stored: the closed row, and the rows of the tasks it creates. */
  ghost predicate Stored(cfg: Config, m: WorkerStatus, ids: seq<TaskId>, attempts: nat,
                         tasks: map<TaskId, Task>, tasks': map<TaskId, Task>)
    requires m.taskId in tasks
  {
    var row := tasks[m.taskId];
    match m
    case Success(_, _, _, output) =>
      var rows := tasks[m.taskId := row.(status := TaskStatus.Success, result := output)];
      if ChunkSets(output).Some? then
        var uuids := ParsedUuids(cfg, ChunkSets(output).value);
        |ids| == |uuids| && tasks' == SavedRows(rows, EmbedTasks(uuids, ids, m.dagRunId, row.tenantId))
      else
        ids == [] && tasks' == rows
    case Failed(_, _, _, error, errorKind) =>
      && ids == []
      && tasks' == tasks[m.taskId :=
           if attempts < cfg.maxAttempts then row.(status := TaskStatus.Pending)
           else row.(status := TaskStatus.Failed, result := Some(Json.Object([
             Json.Entry("error", Json.String(error)),
             Json.Entry("error_kind", if errorKind.None? then Json.Null else Json.String(errorKind.value))])))]
  }

  /** What handling result m of an open attempt does to tasks and runs, given the ids of the tasks it creates. */
  ghost predicate Finished(cfg: Config, m: WorkerStatus, ids: seq<TaskId>, attempts: nat,
                           tasks: map<TaskId, Task>, dagRuns: map<DagRunId, DagRun>,
                           tasks': map<TaskId, Task>, dagRuns': map<DagRunId, DagRun>) {
    if m.taskId !in tasks then
      && tasks' == tasks && ids == []
      && dagRuns' == if m.Success? then dagRuns else Refreshed(dagRuns, tasks', m.dagRunId)
    else
      Stored(cfg, m, ids, attempts, tasks, tasks') && dagRuns' == Refreshed(dagRuns, tasks', m.dagRunId)
  }

  ghost predicate ListedOnce(cache: map<DagRunId, seq<Task>>) {
    forall r :: r in cache ==> forall i, j :: 0 <= i < j < |cache[r]| ==> cache[r][i].id != cache[r][j].id
  }

  /** The effect of considering one task, given the listing used. */
  ghost predicate Considered(task: Task, siblings: map<TaskId, Task>,
                             tasks: map<TaskId, Task>, runs: map<TaskRunId, TaskRun>, dagRuns: map<DagRunId, DagRun>, ready: seq<ReadyTask>,
                             tasks': map<TaskId, Task>, runs': map<TaskRunId, TaskRun>, dagRuns': map<DagRunId, DagRun>, ready': seq<ReadyTask>) {
    if IsReady(task, siblings) then
      && |ready'| == |ready| + 1 && ready' == ready + [ready'[|ready|]]
      && var id := ready'[|ready|].taskRunId;
         && id !in runs && id in runs' && runs' == runs[id := runs'[id]]
         && IsNewAttempt(runs'[id], task, id, |RunsOf(runs, task.id)|) && AsksFor(ready'[|ready|], task, id)
         && tasks' == tasks[task.id := task.(status := TaskStatus.Running)]
         && dagRuns' == Marked(dagRuns, task.dagRunId)
    else
      tasks' == tasks && runs' == runs && dagRuns' == dagRuns && ready' == ready
  }

  /** The state of a round after the tasks in `done`, relative to the rows it started from. */
  ghost predicate RoundSoFar(tasks0: map<TaskId, Task>, runs0: map<TaskRunId, TaskRun>, dags0: map<DagRunId, DagRun>, done: seq<Task>,
                             cache: map<DagRunId, map<TaskId, Task>>, tasks: map<TaskId, Task>, runs: map<TaskRunId, TaskRun>,
                             dagRuns: map<DagRunId, DagRun>, ready: seq<ReadyTask>) {
    && (forall r :: r in cache ==> cache[r] == Siblings(tasks0, r))
    && (forall i :: 0 <= i < |done| ==> done[i].dagRunId in cache)
    && tasks == WithRunning(tasks0, ReadyOf(tasks0, done))
    && NewAttempts(runs0, ReadyOf(tasks0, done), runs, ready)
    && dagRuns == MarkedAll(dags0, ReadyOf(tasks0, done))
  }

  /** A round removes no row. */
  lemma StillStored(tasks0: map<TaskId, Task>, runs0: map<TaskRunId, TaskRun>, dags0: map<DagRunId, DagRun>, done: seq<Task>,
                    cache: map<DagRunId, map<TaskId, Task>>, tasks: map<TaskId, Task>, runs: map<TaskRunId, TaskRun>,
                    dagRuns: map<DagRunId, DagRun>, ready: seq<ReadyTask>)
    requires RoundSoFar(tasks0, runs0, dags0, done, cache, tasks, runs, dagRuns, ready)
    ensures tasks.Keys == tasks0.Keys
  {
  }

  /** What a round leaves, field by field. */
  lemma RoundEnds(tasks0: map<TaskId, Task>, runs0: map<TaskRunId, TaskRun>, dags0: map<DagRunId, DagRun>, queue: seq<Task>,
                  cache: map<DagRunId, map<TaskId, Task>>, tasks: map<TaskId, Task>, runs: map<TaskRunId, TaskRun>,
                  dagRuns: map<DagRunId, DagRun>, ready: seq<ReadyTask>)
    requires RoundSoFar(tasks0, runs0, dags0, queue, cache, tasks, runs, dagRuns, ready)
    ensures var chosen := ReadyOf(tasks0, queue);
            && NewAttempts(runs0, chosen, runs, ready) && |ready| == |chosen|
            && (forall j :: 0 <= j < |ready| ==>
                  var task, rt := chosen[j], ready[j];
                  && rt.tenantId == task.tenantId && rt.dagRunId == task.dagRunId && rt.taskId == task.id
                  && rt.kind == task.kind && rt.payload == task.payload
                  && rt.taskRunId in runs && rt.taskRunId !in runs0
                  && runs[rt.taskRunId].taskId == task.id && runs[rt.taskRunId].status.Running?)
            && tasks == (map k | k in tasks0 :: if tasks0[k] in chosen then tasks0[k].(status := TaskStatus.Running) else tasks0[k])
            && dagRuns == map r | r in dags0 ::
                 if dags0[r].status.Created? && exists t :: t in chosen && t.dagRunId == r
                 then dags0[r].(status := DagRunStatus.Running) else dags0[r]
  {
    hide ReadyOf, MarkedAll;
    MarkedRuns(dags0, ReadyOf(tasks0, queue));
  }

  lemma RoundGoesOn(tasks0: map<TaskId, Task>, runs0: map<TaskRunId, TaskRun>, dags0: map<DagRunId, DagRun>, queue: seq<Task>, n: nat,
                    s: State, ready: seq<ReadyTask>, s': State, ready': seq<ReadyTask>)
    requires n < |queue| && (forall k :: k in tasks0 ==> tasks0[k].id == k)
    requires forall i :: 0 <= i < |queue| ==> queue[i].id in tasks0 && tasks0[queue[i].id] == queue[i]
    requires forall i, j :: 0 <= i < j < |queue| ==> queue[i].id != queue[j].id
    requires RoundSoFar(tasks0, runs0, dags0, queue[..n], s.pump.cache, s.tasks, s.taskRuns, s.dagRuns, ready)
    requires Considered(queue[n], SiblingsUsed(s, queue[n].dagRunId), s.tasks, s.taskRuns, s.dagRuns, ready,
                        s'.tasks, s'.taskRuns, s'.dagRuns, ready')
    requires s'.pump.cache == s.pump.cache[queue[n].dagRunId := SiblingsUsed(s, queue[n].dagRunId)]
    ensures RoundSoFar(tasks0, runs0, dags0, queue[..n + 1], s'.pump.cache, s'.tasks, s'.taskRuns, s'.dagRuns, ready')
  {
    hide IsReady, Siblings, RunsOf, NewAttempts, WithRunning, MarkedAll, ReadyOf, AsksFor, IsNewAttempt;
    var t, chosen := queue[n], ReadyOf(tasks0, queue[..n]);
    FirstListing(tasks0, queue, n, t.dagRunId, s.pump.cache, s.tasks);
    ReadyOfNext(tasks0, queue, n);
    if IsReady(t, Siblings(tasks0, t.dagRunId)) {
      NotYetChosen(tasks0, queue, n, runs0, s.taskRuns, ready);
      OneMoreRunning(tasks0, chosen, t);
      OneMoreAttempt(runs0, chosen, s.taskRuns, ready, t, ready'[|ready|], s'.taskRuns[ready'[|ready|].taskRunId]);
      OneMoreMark(dags0, chosen, t);
    } else {
      assert chosen + [] == chosen;
    }
  }

  lemma QueueRows(cfg: Config, tasks: map<TaskId, Task>, queue: seq<Task>)
    requires IsPendingList(cfg, tasks, queue)
    ensures forall i :: 0 <= i < |queue| ==>
              queue[i].id in tasks && tasks[queue[i].id] == queue[i] && queue[i].status.Pending?
    ensures forall i, j :: 0 <= i < j < |queue| ==> queue[i].id != queue[j].id
  {
  }

  lemma RoundBegins(tasks: map<TaskId, Task>, runs: map<TaskRunId, TaskRun>, dagRuns: map<DagRunId, DagRun>, queue: seq<Task>)
    ensures RoundSoFar(tasks, runs, dagRuns, queue[..0], Cached(map[]), tasks, runs, dagRuns, [])
  {
    assert queue[..0] == [];
  }

  lemma ReadyOfNext(tasks: map<TaskId, Task>, queue: seq<Task>, n: nat)
    requires n < |queue|
    ensures ReadyOf(tasks, queue[..n + 1])
            == ReadyOf(tasks, queue[..n]) + (if IsReady(queue[n], Siblings(tasks, queue[n].dagRunId)) then [queue[n]] else [])
  {
    hide IsReady, Siblings;
    assert queue[..n + 1][..n] == queue[..n];
  }

  /** The first listing of a run in a round is as good as one made before the round: no task of it was dispatched yet. */
  lemma FirstListing(tasks0: map<TaskId, Task>, queue: seq<Task>, n: nat, run: DagRunId,
                     cache: map<DagRunId, map<TaskId, Task>>, tasks: map<TaskId, Task>)
    requires n <= |queue| && tasks == WithRunning(tasks0, ReadyOf(tasks0, queue[..n]))
    requires forall i :: 0 <= i < n ==> queue[i].dagRunId in cache
    requires forall r :: r in cache ==> cache[r] == Siblings(tasks0, r)
    ensures (if run in cache && cache[run] != map[] then cache[run] else Siblings(tasks, run)) == Siblings(tasks0, run)
  {
    hide IsReady, ReadyOf;
    ReadyAreQueued(tasks0, queue[..n]);
    if run !in cache {
      forall k | k in tasks0 && tasks0[k].dagRunId == run ensures tasks0[k] !in ReadyOf(tasks0, queue[..n]) {
        assert tasks0[k] !in queue[..n];
      }
      assert Siblings(tasks, run) == Siblings(tasks0, run);
    } else if Siblings(tasks0, run) == map[] {
      forall k | k in tasks0 ensures tasks0[k].dagRunId != run {
        assert k !in Siblings(tasks0, run);
      }
      assert Siblings(tasks, run) == map[];
    }
  }

  /** The task at hand was not dispatched before in this round, so its row and its attempts are those of the start. */
  lemma NotYetChosen(tasks0: map<TaskId, Task>, queue: seq<Task>, n: nat, runs0: map<TaskRunId, TaskRun>,
                     runs: map<TaskRunId, TaskRun>, ready: seq<ReadyTask>)
    requires n < |queue| && NewAttempts(runs0, ReadyOf(tasks0, queue[..n]), runs, ready)
    requires forall i, j :: 0 <= i < j < |queue| ==> queue[i].id != queue[j].id
    ensures RunsOf(runs, queue[n].id) == RunsOf(runs0, queue[n].id)
  {
    hide IsReady, ReadyOf;
    var chosen := ReadyOf(tasks0, queue[..n]);
    ReadyAreQueued(tasks0, queue[..n]);
    forall j | 0 <= j < |chosen| ensures chosen[j].id != queue[n].id {
      assert chosen[j] in queue[..n];
    }
    forall j | 0 <= j < |ready| ensures runs[ready[j].taskRunId].taskId != queue[n].id {
      assert runs[ready[j].taskRunId].taskId == chosen[j].id;
    }
  }

  lemma OneMoreRunning(tasks: map<TaskId, Task>, chosen: seq<Task>, t: Task)
    requires t.id in tasks && tasks[t.id] == t && forall k :: k in tasks ==> tasks[k].id == k
    ensures WithRunning(tasks, chosen + [t]) == WithRunning(tasks, chosen)[t.id := t.(status := TaskStatus.Running)]
  {
    forall k | k in tasks ensures tasks[k] in chosen + [t] <==> tasks[k] in chosen || k == t.id {
    }
  }

  lemma OneMoreAttempt(runs0: map<TaskRunId, TaskRun>, chosen: seq<Task>, runs: map<TaskRunId, TaskRun>,
                       ready: seq<ReadyTask>, t: Task, rt: ReadyTask, run: TaskRun)
    requires NewAttempts(runs0, chosen, runs, ready) && rt.taskRunId !in runs
    requires RunsOf(runs, t.id) == RunsOf(runs0, t.id)
    requires AsksFor(rt, t, rt.taskRunId) && IsNewAttempt(run, t, rt.taskRunId, |RunsOf(runs0, t.id)|)
    ensures NewAttempts(runs0, chosen + [t], runs[rt.taskRunId := run], ready + [rt])
  {
    hide RunsOf, AsksFor;
    var more := ready + [rt];
    var after := runs[rt.taskRunId := run];
    forall q | q in after ensures q in runs0 || exists j :: 0 <= j < |more| && more[j].taskRunId == q {
      if q in runs && q !in runs0 {
        var j :| 0 <= j < |ready| && ready[j].taskRunId == q;
        assert more[j].taskRunId == q;
      } else if q !in runs {
        assert more[|ready|].taskRunId == q;
      }
    }
  }

  lemma OneMoreMark(dagRuns: map<DagRunId, DagRun>, chosen: seq<Task>, t: Task)
    ensures MarkedAll(dagRuns, chosen + [t]) == Marked(MarkedAll(dagRuns, chosen), t.dagRunId)
  {
    assert (chosen + [t])[..|chosen|] == chosen;
  }
}
