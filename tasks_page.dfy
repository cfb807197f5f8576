/**
 * The task page of one project: its list of tasks, the status filter and
 * the due-date order the user picks, and the list updates that follow the
 * server's replies. The requests themselves are not modelled; each handler
 * is given what the server answered.
 */
module TasksPage {
  import opened Common
  import opened ClientModel
  import ListOps
  import Sorting

  /**
   * The statuses the page knows how to show and cycle through. This is the
   * client's own list, kept apart from the server's on purpose: the page
   * works from it whatever the server accepts.
   */
  const Statuses: seq<string> := ["todo", "in-progress", "done"]

  /** The status filter value that keeps every task. */
  const AllStatuses: string := "all"

  /**
   * The status a click moves a task to: todo, then in-progress, then done,
   * then todo again; any status the page does not know goes to todo.
   */
  function NextStatus(status: string): (next: string)
    ensures next in Statuses
    ensures status in Statuses ==> next != status
    ensures status !in Statuses ==> next == "todo"
  {
    match status
    case "todo" => "in-progress"
    case "in-progress" => "done"
    case "done" => "todo"
    case _ => "todo"
  }

  /**
   * A click moves a known status to the one after it in `Statuses`, and the
   * last one back to the first: todo, in-progress, done, todo.
   */
  lemma NextStatusFollowsList(i: nat)
    requires i < |Statuses|
    ensures NextStatus(Statuses[i]) == Statuses[(i + 1) % |Statuses|]
  {
  }

  /** Three clicks bring a known status back to where it started. */
  lemma NextStatusCycles(status: string)
    requires status in Statuses
    ensures NextStatus(NextStatus(NextStatus(status))) == status
  {
  }

  /** The label shown for a status; an unknown status is shown as it is. */
  function StatusText(status: string): (text: string)
    ensures status !in Statuses ==> text == status
  {
    match status
    case "todo" => "To Do"
    case "in-progress" => "In Progress"
    case "done" => "Done"
    case _ => status
  }

  /** The badge classes for a status; every unknown status shares the grey one. */
  function StatusColor(status: string): (classes: string)
    ensures status !in Statuses ==> classes == "bg-gray-100 text-gray-800"
  {
    match status
    case "todo" => "bg-yellow-100 text-yellow-800"
    case "in-progress" => "bg-blue-100 text-blue-800"
    case "done" => "bg-green-100 text-green-800"
    case _ => "bg-gray-100 text-gray-800"
  }

  /** The three known statuses are told apart by both their label and their colour. */
  lemma StatusPresentationDistinct(s1: string, s2: string)
    requires s1 in Statuses && s2 in Statuses && s1 != s2
    ensures StatusText(s1) != StatusText(s2) && StatusColor(s1) != StatusColor(s2)
  {
  }

  /** A task has the given status. */
  function HasStatus(status: string): TaskItem -> bool {
    (t: TaskItem) => t.status == status
  }

  /**
   * The status filter: "all" keeps the whole list; any other value keeps
   * exactly the tasks with that status, each as often as it occurred.
   */
  function FilterByStatus(tasks: seq<TaskItem>, statusFilter: string): (r: seq<TaskItem>)
    ensures statusFilter == AllStatuses ==> r == tasks
    ensures statusFilter != AllStatuses ==> forall i :: 0 <= i < |r| ==> r[i].status == statusFilter
    ensures forall t :: multiset(r)[t] == if statusFilter == AllStatuses || t.status == statusFilter then multiset(tasks)[t] else 0
  {
    if statusFilter == AllStatuses then tasks
    else
      var r := ListOps.Filter(tasks, HasStatus(statusFilter));
      assert forall t :: multiset(r)[t] == if t.status == statusFilter then multiset(tasks)[t] else 0 by {
        forall t { ListOps.FilterCounts(tasks, HasStatus(statusFilter), t); }
      }
      r
  }

  /**
   * The due-date comparator read as "a may come before b": a task without
   * a due date comes after every task with one, whatever the direction;
   * dated tasks go earliest first when ascending and latest first otherwise.
   */
  predicate DueInOrder(ascending: bool, a: TaskItem, b: TaskItem) {
    if b.dueDate.None? then true
    else if a.dueDate.None? then false
    else if ascending then a.dueDate.value <= b.dueDate.value
    else a.dueDate.value >= b.dueDate.value
  }

  /** Either direction of the due-date comparator is a total preorder. */
  lemma DueOrderIsTotalPreorder(ascending: bool)
    ensures Sorting.TotalPreorder((a: TaskItem, b: TaskItem) => DueInOrder(ascending, a, b))
  {
  }

  class Page {
    var tasks: seq<TaskItem>
    var sortOrder: string
    var statusFilter: string
    var selectedTask: Option<TaskItem>
    var isCreateModalOpen: bool
    var isUpdateModalOpen: bool

    /** The page before anything is fetched: no tasks, ascending, all statuses. */
    constructor ()
      ensures tasks == [] && sortOrder == "asc" && statusFilter == AllStatuses
      ensures selectedTask.None? && !isCreateModalOpen && !isUpdateModalOpen
    {
      tasks, sortOrder, statusFilter := [], "asc", AllStatuses;
      selectedTask, isCreateModalOpen, isUpdateModalOpen := None, false, false;
    }

    /** Fetching the project's tasks replaces the list when the server answers with success. */
    method LoadTasks(fetched: Option<seq<TaskItem>>)
      modifies this`tasks
      ensures tasks == if fetched.Some? then fetched.value else old(tasks)
    {
      if fetched.Some? {
        tasks := fetched.value;
      }
    }

    /** A created task (the server's reply, when it succeeded) goes to the front of the list. */
    method HandleTaskSubmit(created: Option<TaskItem>)
      modifies this`tasks, this`isCreateModalOpen
      ensures created.Some? ==> tasks == [created.value] + old(tasks) && !isCreateModalOpen
      ensures created.None? ==> tasks == old(tasks) && isCreateModalOpen == old(isCreateModalOpen)
    {
      if created.Some? {
        tasks := [created.value] + tasks;
        isCreateModalOpen := false;
      }
    }

    /** Opening the update form selects the task. */
    method HandleUpdateTask(task: TaskItem)
      modifies this`selectedTask, this`isUpdateModalOpen
      ensures selectedTask == Some(task) && isUpdateModalOpen
    {
      selectedTask := Some(task);
      isUpdateModalOpen := true;
    }

    /**
     * With a task selected and a successful reply, every task with the
     * selected task's id becomes the server's version and every other task
     * stays as it was; the form closes. Without a selection nothing happens.
     */
    method HandleTaskUpdate(updated: Option<TaskItem>)
      modifies this`tasks, this`selectedTask, this`isUpdateModalOpen
      ensures old(selectedTask).None? || updated.None? ==>
        tasks == old(tasks) && selectedTask == old(selectedTask) && isUpdateModalOpen == old(isUpdateModalOpen)
      ensures old(selectedTask).Some? && updated.Some? ==>
        && tasks == ListOps.MapWhere(old(tasks), TaskKey, old(selectedTask).value.id, ReplacedBy(updated.value))
        && selectedTask.None? && !isUpdateModalOpen
    {
      if selectedTask.None? {
        return;
      }
      if updated.Some? {
        tasks := ListOps.MapWhere(tasks, TaskKey, selectedTask.value.id, ReplacedBy(updated.value));
        isUpdateModalOpen := false;
        selectedTask := None;
      }
    }

    /**
     * A click on a task's status asks the server for the next status; when
     * it succeeds, the tasks with that id take the new status and nothing
     * else in the list changes.
     */
    method HandleToggleStatus(task: TaskItem, succeeded: bool) returns (newStatus: string)
      modifies this`tasks
      ensures newStatus == NextStatus(task.status)
      ensures succeeded ==> tasks == ListOps.MapWhere(old(tasks), TaskKey, task.id, WithStatus(newStatus))
      ensures !succeeded ==> tasks == old(tasks)
    {
      newStatus := NextStatus(task.status);
      if succeeded {
        tasks := ListOps.MapWhere(tasks, TaskKey, task.id, WithStatus(newStatus));
      }
    }

    /** A confirmed, successful deletion drops every task with that id and keeps the rest in order. */
    method HandleDeleteTask(taskId: Id, confirmed: bool, succeeded: bool)
      modifies this`tasks
      ensures confirmed && succeeded ==> tasks == ListOps.Filter(old(tasks), TaskIdIsNot(taskId))
      ensures !(confirmed && succeeded) ==> tasks == old(tasks)
    {
      if !confirmed {
        return;
      }
      if succeeded {
        tasks := ListOps.Filter(tasks, TaskIdIsNot(taskId));
      }
    }

    /** The sort button flips between ascending and descending. */
    method HandleSortByDueDate()
      modifies this`sortOrder
      ensures sortOrder == if old(sortOrder) == "asc" then "desc" else "asc"
    {
      sortOrder := if sortOrder == "asc" then "desc" else "asc";
    }

    /** The filter select sets the status filter. */
    method HandleFilterByStatus(value: string)
      modifies this`statusFilter
      ensures statusFilter == value
    {
      statusFilter := value;
    }

    /**
     * The list the page shows, computed on a copy (the page's own list is
     * left as it is): the filtered tasks, every dated task before every
     * undated one, dated tasks earliest first for "asc" and latest first for
     * any other order.
     */
    method GetFilteredAndSortedTasks() returns (r: seq<TaskItem>)
      ensures multiset(r) == multiset(FilterByStatus(tasks, statusFilter))
      ensures forall i, j :: 0 <= i < j < |r| && r[i].dueDate.None? ==> r[j].dueDate.None?
      ensures sortOrder == "asc" ==> forall i, j :: 0 <= i < j < |r| && r[i].dueDate.Some? && r[j].dueDate.Some? ==>
        r[i].dueDate.value <= r[j].dueDate.value
      ensures sortOrder != "asc" ==> forall i, j :: 0 <= i < j < |r| && r[i].dueDate.Some? && r[j].dueDate.Some? ==>
        r[i].dueDate.value >= r[j].dueDate.value
    {
      var filtered := FilterByStatus(tasks, statusFilter);
      var ascending := sortOrder == "asc";
      DueOrderIsTotalPreorder(ascending);
      r := Sorting.SortedCopy(filtered, (a: TaskItem, b: TaskItem) => DueInOrder(ascending, a, b));
    }
  }
}
