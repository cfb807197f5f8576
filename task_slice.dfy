/**
 * The task store of the client (a Redux slice): the task list, the loading
 * flag, and the status filter and sort order the views read. Each method is
 * one reducer; the fulfilled cases are given the thunk's payload.
 */
module TaskSlice {
  import opened Common
  import opened ClientModel
  import ListOps

  class TaskState {
    var tasks: seq<TaskItem>
    var loading: bool
    var statusFilter: string
    var sortOrder: string

    /** The initial state: no tasks, not loading, every status, ascending. */
    constructor ()
      ensures tasks == [] && !loading && statusFilter == "all" && sortOrder == "asc"
    {
      tasks, loading, statusFilter, sortOrder := [], false, "all", "asc";
    }

    /** setStatusFilter: only the filter changes. */
    method SetStatusFilter(value: string)
      modifies this`statusFilter
      ensures statusFilter == value
    {
      statusFilter := value;
    }

    /** setSortOrder: only the sort order changes. */
    method SetSortOrder(value: string)
      modifies this`sortOrder
      ensures sortOrder == value
    {
      sortOrder := value;
    }

    /** clearTasks: the list becomes empty. */
    method ClearTasks()
      modifies this`tasks
      ensures tasks == []
    {
      tasks := [];
    }

    /** fetchTasksByProject.fulfilled: the list is the fetched one. */
    method FetchTasksFulfilled(payload: seq<TaskItem>)
      modifies this`tasks, this`loading
      ensures tasks == payload && !loading
    {
      tasks := payload;
      loading := false;
    }

    /** createTask.fulfilled: the new task goes in front of the others, which keep their order. */
    method CreateTaskFulfilled(payload: TaskItem)
      modifies this`tasks, this`loading
      ensures |tasks| == |old(tasks)| + 1 && tasks[0] == payload && tasks[1..] == old(tasks)
      ensures !loading
    {
      tasks := [payload] + tasks;
      loading := false;
    }

    /**
     * updateTask.fulfilled: the first task with the payload's id becomes the
     * payload; later tasks with the same id and all other tasks are kept,
     * and without a match the list is unchanged.
     */
    method UpdateTaskFulfilled(payload: TaskItem)
      modifies this`tasks, this`loading
      ensures tasks == ListOps.UpdateFirst(old(tasks), TaskKey, payload.id, ReplacedBy(payload))
      ensures !loading
    {
      var index := ListOps.FindIndex(tasks, TaskKey, payload.id);
      if index != -1 {
        tasks := tasks[index := payload];
      }
      loading := false;
    }

    /**
     * updateTaskStatus.fulfilled: the first task with that id takes the new
     * status and keeps every other field; nothing else changes.
     */
    method UpdateTaskStatusFulfilled(taskId: Id, status: string)
      modifies this`tasks, this`loading
      ensures tasks == ListOps.UpdateFirst(old(tasks), TaskKey, taskId, WithStatus(status))
      ensures !loading
    {
      var index := ListOps.FindIndex(tasks, TaskKey, taskId);
      if index != -1 {
        tasks := tasks[index := tasks[index].(status := status)];
      }
      loading := false;
    }

    /** deleteTask.fulfilled: every task with that id goes, the rest keep their order. */
    method DeleteTaskFulfilled(taskId: Id)
      modifies this`tasks, this`loading
      ensures tasks == ListOps.Filter(old(tasks), TaskIdIsNot(taskId))
      ensures !loading
    {
      tasks := ListOps.Filter(tasks, TaskIdIsNot(taskId));
      loading := false;
    }
  }

  /** After deleteTask.fulfilled no task with that id is left, and every other task keeps its multiplicity. */
  lemma DeleteRemovesExactlyThatId(tasks: seq<TaskItem>, taskId: Id)
    ensures forall i :: 0 <= i < |ListOps.Filter(tasks, TaskIdIsNot(taskId))| ==>
      ListOps.Filter(tasks, TaskIdIsNot(taskId))[i].id != taskId
    ensures forall t :: multiset(ListOps.Filter(tasks, TaskIdIsNot(taskId)))[t]
                     == (if t.id == taskId then 0 else multiset(tasks)[t])
  {
    forall t {
      ListOps.FilterCounts(tasks, TaskIdIsNot(taskId), t);
    }
  }

  /**
   * While task ids are unique, the store's first-match updates and the task
   * page's update-every-match give the same list, and ids stay unique.
   */
  lemma StoreAndPageUpdatesAgree(tasks: seq<TaskItem>, payload: TaskItem, taskId: Id, status: string)
    requires ListOps.UniqueKeys(tasks, TaskKey)
    ensures ListOps.UpdateFirst(tasks, TaskKey, payload.id, ReplacedBy(payload))
         == ListOps.MapWhere(tasks, TaskKey, payload.id, ReplacedBy(payload))
    ensures ListOps.UpdateFirst(tasks, TaskKey, taskId, WithStatus(status))
         == ListOps.MapWhere(tasks, TaskKey, taskId, WithStatus(status))
    ensures ListOps.UniqueKeys(ListOps.MapWhere(tasks, TaskKey, payload.id, ReplacedBy(payload)), TaskKey)
    ensures ListOps.UniqueKeys(ListOps.MapWhere(tasks, TaskKey, taskId, WithStatus(status)), TaskKey)
    ensures ListOps.UniqueKeys(ListOps.Filter(tasks, TaskIdIsNot(taskId)), TaskKey)
  {
    ListOps.UpdateFirstIsMapWhere(tasks, TaskKey, payload.id, ReplacedBy(payload));
    ListOps.UpdateFirstIsMapWhere(tasks, TaskKey, taskId, WithStatus(status));
    ListOps.MapWhereKeepsKeys(tasks, TaskKey, payload.id, ReplacedBy(payload));
    ListOps.MapWhereKeepsKeys(tasks, TaskKey, taskId, WithStatus(status));
    ListOps.FilterKeepsUniqueKeys(tasks, TaskKey, TaskIdIsNot(taskId));
  }
}
