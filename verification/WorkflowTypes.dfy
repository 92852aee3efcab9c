/** Entities of the workflow control plane and the pure helpers the scheduler calls on them. */
module WorkflowTypes {
  import opened Wrappers
  import Json

  // Ids are UUIDs of version 7 in the source, ordered by the time of their creation. Equality and the order of task ids, by
  // which `list_pending` sorts, matter here.
  type DagRunId = nat
  type TaskId = nat
  type TaskRunId = nat
  type TenantId = nat

  /** The task kinds the executor knows by name; any other string is `Other`. */
  datatype Kind = Extractor | Normalizer | Chunker | Embedder | Indexer | Other(name: string)

  datatype DagRunStatus = Created | Running | Success | Failed | Cancelled | PartialFailed

  datatype TaskStatus = Pending | Ready | Running | Success | Failed | Skipped

  datatype TaskRunStatus = Created | Running | Success | Failed | Aborted
  {
    predicate IsTerminal() { Success? || Failed? || Aborted? }
  }

  datatype DagRun = DagRun(id: DagRunId, tenantId: TenantId, status: DagRunStatus, params: Json.Value)

  datatype Task = Task(id: TaskId, dagRunId: DagRunId, tenantId: TenantId, kind: Kind,
                       status: TaskStatus, payload: Json.Value, result: Option<Json.Value>)

  datatype TaskRun = TaskRun(id: TaskRunId, taskId: TaskId, tenantId: TenantId, status: TaskRunStatus,
                             attemptNo: nat, error: Option<string>)

  /** A dispatched attempt, as published to the workers. */
  datatype ReadyTask = ReadyTask(tenantId: TenantId, dagRunId: DagRunId, taskId: TaskId,
                                 taskRunId: TaskRunId, kind: Kind, payload: Json.Value)

  /** A worker's result; it echoes the ids of the request it answers. */
  datatype WorkerStatus =
    | Success(dagRunId: DagRunId, taskId: TaskId, taskRunId: TaskRunId, output: Option<Json.Value>)
    | Failed(dagRunId: DagRunId, taskId: TaskId, taskRunId: TaskRunId, error: string, errorKind: Option<string>)

  /** Settings of the scheduler, and the UUID parser it calls on chunk set ids
      (the parser yields the canonical text of the UUID, or None). */
  datatype Config = Config(maxAttempts: nat, maxBatch: Option<nat>, parseUuid: string -> Option<string>)
  {
    predicate ShouldRetry(attempts: nat) { attempts < maxAttempts }

    /** No task is ever attempted more often than this. */
    function MaxRuns(): nat { if maxAttempts == 0 then 1 else maxAttempts }
  }

  const USIZE_MAX: nat := 0xFFFF_FFFF_FFFF_FFFF

  function Ordering(kind: Kind): nat {
    match kind
    case Extractor => 0
    case Normalizer => 1
    case Chunker => 2
    case Embedder => 3
    case Indexer => 4
    case Other(_) => USIZE_MAX
  }

  /** Kind a comes before kind b in a run; a kind that the executor does not know comes after none. */
  predicate StageBefore(a: Kind, b: Kind) {
    match b
    case Extractor => false
    case Normalizer => a.Extractor?
    case Chunker => a.Extractor? || a.Normalizer?
    case Embedder => a.Extractor? || a.Normalizer? || a.Chunker?
    case Indexer => a.Extractor? || a.Normalizer? || a.Chunker? || a.Embedder?
    case Other(_) => false
  }

  /** Whether a task may be dispatched, judged on a listing of its run's tasks. */
  predicate IsReady(task: Task, siblings: map<TaskId, Task>) {
    && (task.status.Pending? || task.status.Ready?)
    && var idx := Ordering(task.kind);
       idx == 0 || idx == USIZE_MAX ||
       forall k <- siblings :: Ordering(siblings[k].kind) < idx ==>
         siblings[k].status.Success? || siblings[k].status.Skipped?
  }

  function DagStatusFromTasks(statuses: seq<TaskStatus>): DagRunStatus {
    if exists i :: 0 <= i < |statuses| && statuses[i].Failed? then DagRunStatus.Failed
    else if forall i :: 0 <= i < |statuses| ==> statuses[i].Success? || statuses[i].Skipped? then DagRunStatus.Success
    else DagRunStatus.Running
  }

  /** The rows of one dag run. */
  function Siblings(tasks: map<TaskId, Task>, run: DagRunId): map<TaskId, Task> {
    map k | k in tasks && tasks[k].dagRunId == run :: tasks[k]
  }

  /** The attempts of one task. */
  function RunsOf(taskRuns: map<TaskRunId, TaskRun>, task: TaskId): set<TaskRunId> {
    set k | k in taskRuns && taskRuns[k].taskId == task
  }

  /** `output.get("chunk_set_ids").as_array()` */
  function ChunkSets(output: Option<Json.Value>): Option<seq<Json.Value>> {
    if output.None? then None
    else match Json.Get(output.value, "chunk_set_ids")
      case None => None
      case Some(v) => Json.AsArray(v)
  }

  /** The UUIDs among the listed chunk sets; other entries are skipped. */
  function ParsedUuids(cfg: Config, list: seq<Json.Value>): seq<string> {
    if list == [] then []
    else
      var rest := ParsedUuids(cfg, list[1..]);
      if list[0].String? && cfg.parseUuid(list[0].text).Some?
      then [cfg.parseUuid(list[0].text).value] + rest
      else rest
  }

  /** The UUIDs that an output lists as chunk sets. */
  function ListedUuids(cfg: Config, output: Option<Json.Value>): seq<string> {
    if output.Some? && Json.Get(output.value, "chunk_set_ids").Some? && Json.Get(output.value, "chunk_set_ids").value.Array?
    then ParsedUuids(cfg, Json.Get(output.value, "chunk_set_ids").value.items) else []
  }

  lemma ListedAre(cfg: Config, output: Option<Json.Value>)
    ensures ListedUuids(cfg, output) == if ChunkSets(output).Some? then ParsedUuids(cfg, ChunkSets(output).value) else []
    ensures ChunkSets(output).Some? ==> output.Some?
  {
    hide ParsedUuids;
  }

  /** The embedder tasks that a chunker's output asks for, under the given new ids. */
  function EmbedTasks(uuids: seq<string>, ids: seq<TaskId>, run: DagRunId, tenant: TenantId): seq<Task>
    requires |ids| == |uuids|
  {
    seq(|uuids|, i requires 0 <= i < |uuids| =>
      Task(ids[i], run, tenant, Embedder, TaskStatus.Pending,
           Json.Object([Json.Entry("chunk_set_id", Json.String(uuids[i]))]), None))
  }

  /** The attempt as the handler stores it once a result arrived. */
  function ClosedRun(m: WorkerStatus, run: TaskRun): TaskRun {
    match m
    case Success(_, _, _, _) => run.(status := TaskRunStatus.Success, error := None)
    case Failed(_, _, _, error, _) => run.(status := TaskRunStatus.Failed, error := Some(error))
  }

  /** The status a task takes when result m arrives and `attempts` attempts are recorded. */
  function Outcome(cfg: Config, m: WorkerStatus, attempts: nat): TaskStatus {
    if m.Success? then TaskStatus.Success
    else if cfg.ShouldRetry(attempts) then TaskStatus.Pending
    else TaskStatus.Failed
  }

  function ErrorResult(m: WorkerStatus): Json.Value
    requires m.Failed?
  {
    Json.Object([Json.Entry("error", Json.String(m.error)),
                 Json.Entry("error_kind", if m.errorKind.None? then Json.Null else Json.String(m.errorKind.value))])
  }

  /** The task row as the handler stores it. */
  function ClosedTask(cfg: Config, m: WorkerStatus, attempts: nat, task: Task): Task {
    var status := Outcome(cfg, m, attempts);
    if m.Success? then task.(status := status, result := m.output)
    else if status.Failed? then task.(status := status, result := Some(ErrorResult(m)))
    else task.(status := status)
  }

  const PROFILE_SEQUENCE: seq<Kind> := [Extractor, Normalizer, Chunker, Embedder, Indexer]

  /** The tasks a plan creates, under the given new ids. */
  function PlannedTasks(ids: seq<TaskId>, run: DagRunId, tenant: TenantId, input: Json.Value): seq<Task>
    requires |ids| == 5
  {
    seq(5, i requires 0 <= i < 5 =>
      Task(ids[i], run, tenant, PROFILE_SEQUENCE[i], TaskStatus.Pending,
           if i == 0 then input else Json.Null, None))
  }
}
