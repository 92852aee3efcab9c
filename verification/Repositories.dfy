/** The in-memory repositories that hold the scheduler's state: a map per entity, replaced row by row. */
module Repositories {
  import opened Wrappers
  import opened WorkflowTypes
  import opened WorkflowMachine
  import Sorting

  class MemDagRunRepo {
    var rows: map<DagRunId, DagRun>

    /** Rows are stored under their own id. */
    ghost predicate Valid() reads this { forall k :: k in rows ==> rows[k].id == k }

    constructor ()
      ensures Valid() && rows == map[]
    {
      rows := map[];
    }

    method Get(id: DagRunId) returns (row: Option<DagRun>)
      ensures row == if id in rows then Some(rows[id]) else None
    {
      row := if id in rows then Some(rows[id]) else None;
    }

    method Save(row: DagRun)
      requires Valid()
      modifies this
      ensures Valid() && rows == old(rows)[row.id := row]
    {
      rows := rows[row.id := row];
    }
  }

  /** The listing as a map, for listings with one row per id. */
  ghost function ById(list: seq<Task>): map<TaskId, Task> {
    if list == [] then map[] else ById(list[..|list| - 1])[list[|list| - 1].id := list[|list| - 1]]
  }

  lemma {:induction false} ByIdRows(list: seq<Task>)
    requires forall i, j :: 0 <= i < j < |list| ==> list[i].id != list[j].id
    ensures forall k :: k in ById(list) <==> exists i :: 0 <= i < |list| && list[i].id == k
    ensures forall i :: 0 <= i < |list| ==> list[i].id in ById(list) && ById(list)[list[i].id] == list[i]
  {
    if list != [] {
      var front, last := list[..|list| - 1], list[|list| - 1];
      ByIdRows(front);
      forall k ensures k in ById(list) <==> exists i :: 0 <= i < |list| && list[i].id == k {
        if k in ById(front) {
          var i :| 0 <= i < |front| && front[i].id == k;
          assert list[i].id == k;
        }
      }
      forall i | 0 <= i < |list| ensures list[i].id in ById(list) && ById(list)[list[i].id] == list[i] {
        if i < |front| {
          assert front[i] == list[i] && front[i].id in ById(front);
        }
      }
    }
  }

  lemma ByIdIsSiblings(rows: map<TaskId, Task>, run: DagRunId, list: seq<Task>)
    requires forall k :: k in rows ==> rows[k].id == k
    requires forall i, j :: 0 <= i < j < |list| ==> list[i].id != list[j].id
    requires forall t :: t in list <==> t.id in rows && rows[t.id] == t && t.dagRunId == run
    ensures ById(list) == Siblings(rows, run)
  {
    hide ById;
    ByIdRows(list);
    assert forall i :: 0 <= i < |list| ==> list[i] in list;
    forall k ensures k in ById(list) <==> k in Siblings(rows, run) {
      if k in Siblings(rows, run) {
        assert rows[k] in list;
      }
    }
    forall k | k in ById(list) ensures ById(list)[k] == Siblings(rows, run)[k] {
      var i :| 0 <= i < |list| && list[i].id == k;
    }
  }

  /** Two rows in id order; ids are compared as numbers. */
  const BY_ID: (Task, Task) -> bool := (a: Task, b: Task) => a.id <= b.id

  const BY_ATTEMPT: (TaskRun, TaskRun) -> bool := (a: TaskRun, b: TaskRun) => a.attemptNo <= b.attemptNo

  class MemTaskRepo {
    var rows: map<TaskId, Task>

    ghost predicate Valid() reads this { forall k :: k in rows ==> rows[k].id == k }

    constructor ()
      ensures Valid() && rows == map[]
    {
      rows := map[];
    }

    method Get(id: TaskId) returns (row: Option<Task>)
      ensures row == if id in rows then Some(rows[id]) else None
    {
      row := if id in rows then Some(rows[id]) else None;
    }

    method Save(row: Task)
      requires Valid()
      modifies this
      ensures Valid() && rows == old(rows)[row.id := row]
    {
      rows := rows[row.id := row];
    }

    /** Every row once, in no particular order. */
    method ListAll() returns (list: seq<Task>)
      requires Valid()
      ensures forall i, j :: 0 <= i < j < |list| ==> list[i].id != list[j].id
      ensures forall t :: t in list <==> t.id in rows && rows[t.id] == t
    {
      list := [];
      var left := rows.Keys;
      while left != {}
        invariant left <= rows.Keys
        invariant forall i, j :: 0 <= i < j < |list| ==> list[i].id != list[j].id
        invariant forall t :: t in list <==> t.id in rows && t.id !in left && rows[t.id] == t
        decreases left
      {
        var k :| k in left;
        list := list + [rows[k]];
        left := left - {k};
      }
    }

    /** The rows of one dag run, each once. */
    method ListByDagRun(run: DagRunId) returns (list: seq<Task>)
      requires Valid()
      ensures forall i, j :: 0 <= i < j < |list| ==> list[i].id != list[j].id
      ensures forall t :: t in list <==> t.id in rows && rows[t.id] == t && t.dagRunId == run
      ensures ById(list) == Siblings(rows, run)
    {
      var all := ListAll();
      list := [];
      for n := 0 to |all|
        invariant forall i, j :: 0 <= i < j < |list| ==> list[i].id != list[j].id
        invariant forall t :: t in list <==> t in all[..n] && t.dagRunId == run
      {
        if all[n].dagRunId == run {
          list := list + [all[n]];
        }
        assert all[..n + 1] == all[..n] + [all[n]];
      }
      assert all[..|all|] == all;
      ByIdIsSiblings(rows, run, list);
    }

    /** Pending rows in id order, at most `limit` of them. */
    method ListPending(cfg: Config) returns (list: seq<Task>)
      requires Valid()
      ensures IsPendingList(cfg, rows, list)
      ensures forall i, j :: 0 <= i < j < |list| ==> list[i].id < list[j].id
      ensures forall t :: t in list ==> t.id in rows && rows[t.id] == t && t.status.Pending?
      ensures cfg.maxBatch.None? ==> forall k :: k in rows && rows[k].status.Pending? ==> rows[k] in list
      ensures cfg.maxBatch.Some? ==> |list| <= cfg.maxBatch.value
      ensures cfg.maxBatch.Some? && |list| < cfg.maxBatch.value ==> forall k :: k in rows && rows[k].status.Pending? ==> rows[k] in list
      ensures forall k, i :: k in rows && rows[k].status.Pending? && rows[k] !in list && 0 <= i < |list| ==> list[i].id < k
    {
      var all := ListAll();
      var found: seq<Task> := [];
      for n := 0 to |all|
        invariant forall i, j :: 0 <= i < j < |found| ==> found[i].id != found[j].id
        invariant forall t :: t in found <==> t in all[..n] && t.status.Pending?
      {
        if all[n].status.Pending? {
          found := found + [all[n]];
        }
        assert all[..n + 1] == all[..n] + [all[n]];
      }
      assert all[..|all|] == all;
      list := Sorting.Sort(BY_ID, found);
      SortedPending(cfg, rows, found);
      if cfg.maxBatch.Some? && cfg.maxBatch.value < |list| {
        Truncated(cfg, rows, list);
        list := list[..cfg.maxBatch.value];
      }
    }
  }

  ghost predicate AllPending(tasks: map<TaskId, Task>, list: seq<Task>) {
    forall t :: t in list <==> t.id in tasks && tasks[t.id] == t && t.status.Pending?
  }

  lemma SortedPending(cfg: Config, tasks: map<TaskId, Task>, found: seq<Task>)
    requires forall k :: k in tasks ==> tasks[k].id == k
    requires AllPending(tasks, found) && forall i, j :: 0 <= i < j < |found| ==> found[i].id != found[j].id
    ensures var list := Sorting.Sort(BY_ID, found);
            AllPending(tasks, list) && forall i, j :: 0 <= i < j < |list| ==> list[i].id < list[j].id
    ensures cfg.maxBatch.None? || |found| <= cfg.maxBatch.value ==> IsPendingList(cfg, tasks, Sorting.Sort(BY_ID, found))
    ensures |Sorting.Sort(BY_ID, found)| == |found|
  {
    var list := Sorting.Sort(BY_ID, found);
    Sorting.SortSorted(BY_ID, found);
    Sorting.MultisetElements(found, list);
    DistinctStays(found, list);
    forall i, j | 0 <= i < j < |list| ensures list[i].id < list[j].id {
      assert BY_ID(list[i], list[j]);
    }
    assert forall k :: k in tasks && tasks[k].status.Pending? ==> tasks[k] in list;
  }

  /** A rearrangement of a duplicate-free listing has no duplicates. */
  lemma DistinctStays(a: seq<Task>, b: seq<Task>)
    requires multiset(a) == multiset(b)
    requires forall i, j :: 0 <= i < j < |a| ==> a[i].id != a[j].id
    ensures forall i, j :: 0 <= i < j < |b| ==> b[i].id != b[j].id
  {
    Sorting.MultisetElements(a, b);
    Sorting.OnceEach(a);
    forall i, j | 0 <= i < j < |b| ensures b[i].id != b[j].id {
      assert b[i] in a && b[j] in a;
      if b[i] == b[j] {
        Sorting.TwiceCounts(b, i, j);
      }
    }
  }

  lemma Truncated(cfg: Config, tasks: map<TaskId, Task>, list: seq<Task>)
    requires forall k :: k in tasks ==> tasks[k].id == k
    requires cfg.maxBatch.Some? && cfg.maxBatch.value < |list| && AllPending(tasks, list)
    requires forall i, j :: 0 <= i < j < |list| ==> list[i].id < list[j].id
    ensures IsPendingList(cfg, tasks, list[..cfg.maxBatch.value])
  {
    var cut := list[..cfg.maxBatch.value];
    forall i | 0 <= i < |cut| ensures cut[i].id in tasks && tasks[cut[i].id] == cut[i] && cut[i].status.Pending? {
      assert cut[i] in list;
    }
    assert forall j :: 0 <= j < |cut| ==> list[j] in cut by {
      assert forall j :: 0 <= j < |cut| ==> cut[j] == list[j];
    }
    forall k, i | k in tasks && tasks[k].status.Pending? && tasks[k] !in cut && 0 <= i < |cut| ensures cut[i].id < k {
      assert tasks[k] in list;
      var j :| 0 <= j < |list| && list[j] == tasks[k];
    }
  }

  class MemTaskRunRepo {
    var rows: map<TaskRunId, TaskRun>

    ghost predicate Valid() reads this { forall k :: k in rows ==> rows[k].id == k }

    constructor ()
      ensures Valid() && rows == map[]
    {
      rows := map[];
    }

    method Get(id: TaskRunId) returns (row: Option<TaskRun>)
      ensures row == if id in rows then Some(rows[id]) else None
    {
      row := if id in rows then Some(rows[id]) else None;
    }

    method Save(row: TaskRun)
      requires Valid()
      modifies this
      ensures Valid() && rows == old(rows)[row.id := row]
    {
      rows := rows[row.id := row];
    }

    /** The attempts of a task, each once, in attempt order. */
    method ListByTask(task: TaskId) returns (list: seq<TaskRun>)
      requires Valid()
      ensures forall t :: t in list <==> t.id in rows && rows[t.id] == t && t.taskId == task
      ensures forall i, j :: 0 <= i < j < |list| ==> list[i].attemptNo <= list[j].attemptNo
      ensures |list| == |RunsOf(rows, task)|
    {
      var found: seq<TaskRun> := [];
      var left := rows.Keys;
      ghost var taken: set<TaskRunId> := {};
      while left != {}
        invariant left <= rows.Keys && taken == RunsOf(rows, task) - left && |found| == |taken|
        invariant forall t :: t in found <==> t.id in taken && rows[t.id] == t
        decreases left
      {
        var k :| k in left;
        left := left - {k};
        if rows[k].taskId == task {
          found := found + [rows[k]];
          taken := taken + {k};
        }
      }
      list := Sorting.Sort(BY_ATTEMPT, found);
      SortedAttempts(found);
    }
  }

  lemma SortedAttempts(found: seq<TaskRun>)
    ensures var list := Sorting.Sort(BY_ATTEMPT, found);
            && |list| == |found| && (forall t :: t in list <==> t in found)
            && forall i, j :: 0 <= i < j < |list| ==> list[i].attemptNo <= list[j].attemptNo
  {
    var list := Sorting.Sort(BY_ATTEMPT, found);
    Sorting.SortSorted(BY_ATTEMPT, found);
    Sorting.MultisetElements(found, list);
  }

  /** A source of ids never handed out before. */
  class IdSource {
    var next: nat

    constructor ()
      ensures next == 0
    {
      next := 0;
    }

    method New() returns (id: nat)
      modifies this
      ensures id == old(next) && next == old(next) + 1
    {
      id := next;
      next := next + 1;
    }
  }
}
