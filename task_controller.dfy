/**
 * The task handlers. A task carries no owner: every handler re-derives
 * authorization from the task's parent project on each call, and a task is
 * written only after the caller is found to own the project it belongs to
 * (and, when it is moved, the project it moves to).
 */
module TaskController {
  import opened Common
  import opened TaskModel
  import opened ProjectModel
  import opened Database
  import Strings

  /** Milliseconds in a day, and the offset of 23:59:59.999 from 00:00:00.000. */
  const MsPerDay: int := 24 * 60 * 60 * 1000
  const EndOfDayOffset: int := MsPerDay - 1

  const InvalidStatusMessage: string := "Invalid status value. Must be 'todo', 'in-progress', or 'done'"

  /** A closed interval of due dates. */
  datatype DueWindow = DueWindow(start: Timestamp, end: Timestamp)

  /** The filter handed to `Task.find`: the project, then optionally an exact status and a due window. */
  datatype TaskQuery = TaskQuery(project: Id, status: Option<string>, due: Option<DueWindow>)

  /** The order handed to `.sort`: a field and 1 (ascending) or -1 (descending). */
  datatype SortSpec = SortSpec(field: string, direction: int)

  /** A task read with `populate("project")`: its reference replaced by the parent project document. */
  datatype PopulatedTask = PopulatedTask(task: Task, project: Project)

  /** The body of the listing reply: `{count, tasks}`, with the order the store is asked for. */
  datatype TaskList = TaskList(count: nat, tasks: map<Id, Task>, order: SortSpec)

  /**
   * The query built from the request: a status filter only for a non-empty
   * status, and for a due day (given as the timestamp of its midnight) the
   * window from 00:00:00.000 to 23:59:59.999 of that day.
   */
  function BuildQuery(projectId: Id, status: Option<string>, dueDay: Option<Timestamp>): (q: TaskQuery)
    ensures q.project == projectId
    ensures q.status.Some? <==> Truthy(status)
    ensures q.status.Some? ==> q.status == status
    ensures q.due.Some? <==> dueDay.Some?
    ensures q.due.Some? ==> q.due.value.start == dueDay.value && q.due.value.end == dueDay.value + EndOfDayOffset
  {
    TaskQuery(
      projectId,
      if Truthy(status) then status else None,
      if dueDay.Some? then Some(DueWindow(dueDay.value, dueDay.value + EndOfDayOffset)) else None)
  }

  /**
   * Whether `Task.find(q)` returns a stored task: the query's project id is
   * cast, so it matches the stored reference in either spelling, and
   * `$gte`/`$lte` never match a task without a due date.
   */
  predicate Matches(q: TaskQuery, t: Task): (b: bool)
    ensures b ==> Canonical(t.project) == Canonical(q.project)
    ensures q.due.Some? && t.dueDate.None? ==> !b
    ensures q.status.Some? && t.status != q.status.value ==> !b
  {
    && Canonical(t.project) == Canonical(q.project)
    && (q.status.Some? ==> t.status == q.status.value)
    && (q.due.Some? ==> t.dueDate.Some? && q.due.value.start <= t.dueDate.value <= q.due.value.end)
  }

  /**
   * A task passes the built query exactly when it belongs to the project,
   * has the requested status (if one is given), and is due on the requested
   * day, that is before the next day's midnight (if a day is given).
   */
  lemma QueryMeaning(projectId: Id, status: Option<string>, dueDay: Option<Timestamp>, t: Task)
    ensures Matches(BuildQuery(projectId, status, dueDay), t) <==>
      && Canonical(t.project) == Canonical(projectId)
      && (Truthy(status) ==> t.status == status.value)
      && (dueDay.Some? ==> t.dueDate.Some? && dueDay.value <= t.dueDate.value < dueDay.value + MsPerDay)
  {
  }

  /**
   * The sort built from the request: by `sortBy` when one is given,
   * descending exactly when `sortOrder` is "desc"; otherwise newest first
   * by creation time.
   */
  function BuildSort(sortBy: Option<string>, sortOrder: Option<string>): (s: SortSpec)
    ensures s.direction == 1 || s.direction == -1
    ensures Truthy(sortBy) ==> s.field == sortBy.value && (s.direction == -1 <==> sortOrder == Some("desc"))
    ensures !Truthy(sortBy) ==> s == SortSpec("createdAt", -1)
  {
    if Truthy(sortBy) then SortSpec(sortBy.value, if sortOrder == Some("desc") then -1 else 1)
    else SortSpec("createdAt", -1)
  }

  /**
   * The document `findByIdAndUpdate` leaves: absent fields are dropped from
   * the update, a given title is trimmed (no validator runs, so neither the
   * title nor the status is checked), the project is the one given and the
   * update time is refreshed.
   */
  function ApplyTaskUpdate(t: Task, title: Option<string>, description: Option<string>, status: Option<string>,
                           dueDate: Option<Timestamp>, project: Id, now: Timestamp): (u: Task)
    ensures u.project == project && u.createdAt == t.createdAt && u.updatedAt == now
    ensures u.title == if title.Some? then Strings.Trim(title.value) else t.title
    ensures u.description == if description.Some? then description else t.description
    ensures u.status == if status.Some? then status.value else t.status
    ensures u.dueDate == if dueDate.Some? then dueDate else t.dueDate
  {
    Task(
      if title.Some? then Strings.Trim(title.value) else t.title,
      if description.Some? then description else t.description,
      if status.Some? then status.value else t.status,
      if dueDate.Some? then dueDate else t.dueDate,
      project,
      t.createdAt,
      now)
  }

  /** The fields createTask hands to `new Task`: the status defaults to "todo", and the project id is cast. */
  function CreationFields(title: Option<string>, description: Option<string>, dueDate: Option<Timestamp>,
                          projectId: Id, status: Option<string>): TaskFields
  {
    TaskFields(title, description, Some(OrElse(status, DefaultStatus)), dueDate, Some(Canonical(projectId)))
  }

  /**
   * createTask: 404 when no project is named or it does not exist, 401 when
   * it belongs to someone else, and no task is written in either case. A
   * project id that does not cast makes the lookup throw, which this
   * handler reports as 500. Otherwise the task is built with status "todo"
   * unless one is given and saved; a save the schema refuses is a 500.
   */
  method CreateTask(db: Db, caller: Id, title: Option<string>, description: Option<string>, dueDate: Option<Timestamp>,
                    projectId: Option<Id>, status: Option<string>, newId: Id, now: Timestamp)
    returns (r: Reply<Task>)
    requires newId !in db.tasks
    modifies db`tasks
    ensures projectId.None? ==> r == Reply(404, "Project not found", None)
    ensures projectId.Some? && !IsObjectId(projectId.value) ==> r == Reply(500, "Error creating task", None)
    ensures projectId.Some? && db.ProjectAccess(caller, projectId.value) == 404 ==> r == Reply(404, "Project not found", None)
    ensures projectId.Some? && db.ProjectAccess(caller, projectId.value) == 401 ==>
      r == Reply(401, "Not authorized to create tasks in this project", None)
    ensures r.code != 201 ==> db.tasks == old(db.tasks) && r.body.None?
    ensures r.code == 201 <==>
      && projectId.Some? && IsObjectId(projectId.value) && db.OwnsProject(caller, projectId.value)
      && NewTask(CreationFields(title, description, dueDate, projectId.value, status), db.taskStatuses, now).Ok?
    ensures (projectId.Some? && db.ProjectAccess(caller, projectId.value) == 200
             && NewTask(CreationFields(title, description, dueDate, projectId.value, status), db.taskStatuses, now).Err?)
        ==> r == Reply(500, "Error creating task", None)
    ensures r.code == 201 ==>
      && r == Reply(201, "Task created successfully",
                    Some(NewTask(CreationFields(title, description, dueDate, projectId.value, status), db.taskStatuses, now).value))
      && db.tasks == old(db.tasks)[newId := r.body.value]
      && r.body.value.project == Canonical(projectId.value)
      && r.body.value.status == OrElse(status, DefaultStatus)
      && r.body.value.title == Strings.Trim(title.value)
  {
    if projectId.None? {
      return Reply(404, "Project not found", None);
    }
    match db.FindProject(projectId.value)
    case CastError =>
      r := Reply(500, "Error creating task", None);
    case Missing =>
      r := Reply(404, "Project not found", None);
    case Found(project) =>
      if project.user != caller {
        r := Reply(401, "Not authorized to create tasks in this project", None);
      } else {
        var doc := NewTask(CreationFields(title, description, dueDate, projectId.value, status), db.taskStatuses, now);
        if doc.Err? {
          r := Reply(500, "Error creating task", None);
        } else {
          db.tasks := db.tasks[newId := doc.value];
          r := Reply(201, "Task created successfully", Some(doc.value));
        }
      }
  }

  /**
   * getTasksByProject: after the ownership check on the project, exactly
   * the tasks of that project that pass the built query, their number, and
   * the order the store is asked to return them in.
   */
  method GetTasksByProject(db: Db, caller: Id, projectId: Id, status: Option<string>, dueDay: Option<Timestamp>,
                           sortBy: Option<string>, sortOrder: Option<string>)
    returns (r: Reply<TaskList>)
    ensures r.code == db.ProjectAccess(caller, projectId)
    ensures r.code == 200 <==> r.body.Some?
    ensures r.code == 200 ==>
      var list := r.body.value;
      && (forall id :: id in list.tasks <==> id in db.tasks && Matches(BuildQuery(projectId, status, dueDay), db.tasks[id]))
      && (forall id :: id in list.tasks ==> list.tasks[id] == db.tasks[id] && Canonical(list.tasks[id].project) == Canonical(projectId))
      && list.count == |list.tasks|
      && list.order == BuildSort(sortBy, sortOrder)
    ensures r.code == 400 ==> r.message == "Invalid project ID format"
  {
    match db.FindProject(projectId)
    case CastError =>
      r := Reply(400, "Invalid project ID format", None);
    case Missing =>
      r := Reply(404, "Project not found", None);
    case Found(project) =>
      if project.user != caller {
        r := Reply(401, "Not authorized to access tasks in this project", None);
      } else {
        var query := BuildQuery(projectId, status, dueDay);
        var order := BuildSort(sortBy, sortOrder);
        var found := map id | id in db.tasks && Matches(query, db.tasks[id]) :: db.tasks[id];
        r := Reply(200, "", Some(TaskList(|found|, found, order)));
      }
  }

  /** getTaskById: the task with its parent project populated, once that project is found to be the caller's. */
  method GetTaskById(db: Db, caller: Id, id: Id) returns (r: Reply<PopulatedTask>)
    ensures r.code == db.TaskAccess(caller, id)
    ensures r.code == 200 <==> r.body.Some?
    ensures r.code == 200 ==>
      && r.body.value.task == db.tasks[Canonical(id)]
      && r.body.value.project == db.projects[Canonical(r.body.value.task.project)]
      && r.body.value.project.user == caller
    ensures r.code == 404 ==> r.message == "Task not found"
    ensures r.code == 401 ==> r.message == "Not authorized to access this task"
  {
    match db.FindTask(id)
    case TaskCastError =>
      r := Reply(400, "Invalid task ID format", None);
    case TaskMissing =>
      r := Reply(404, "Task not found", None);
    case TaskFound(task, project) =>
      if project.None? {
        r := Reply(500, "Error fetching task", None);
      } else if project.value.user != caller {
        r := Reply(401, "Not authorized to access this task", None);
      } else {
        r := Reply(200, "", Some(PopulatedTask(task, project.value)));
      }
  }

  /**
   * updateTask: after the ownership check on the task, a move to another
   * project is checked against that project too (404 when it is missing,
   * 401 when it is someone else's, 400 when its id does not cast); only
   * when every check passes is the task rewritten, so a refused move leaves
   * it exactly as it was. A successful update leaves the task in a project
   * the caller owns.
   */
  method UpdateTask(db: Db, caller: Id, id: Id, title: Option<string>, description: Option<string>, status: Option<string>,
                    dueDate: Option<Timestamp>, projectId: Option<Id>, now: Timestamp)
    returns (r: Reply<Task>)
    modifies db`tasks
    ensures old(db.TaskAccess(caller, id)) != 200 ==> r.code == old(db.TaskAccess(caller, id))
    ensures old(db.TaskAccess(caller, id)) == 200 && Truthy(projectId) && projectId.value != old(db.tasks[Canonical(id)].project) ==>
      r.code == db.ProjectAccess(caller, projectId.value)
    ensures old(db.TaskAccess(caller, id)) == 200 && !(Truthy(projectId) && projectId.value != old(db.tasks[Canonical(id)].project)) ==>
      r.code == 200
    ensures r.code != 200 ==> db.tasks == old(db.tasks) && r.body.None?
    ensures r.code == 200 ==>
      && r.message == "Task updated successfully"
      && db.tasks == old(db.tasks)[Canonical(id) := ApplyTaskUpdate(old(db.tasks[Canonical(id)]), title, description, status, dueDate,
           if Truthy(projectId) then Canonical(projectId.value) else old(db.tasks[Canonical(id)].project), now)]
      && r.body == Some(db.tasks[Canonical(id)])
      && db.OwnsTask(caller, id)
  {
    match db.FindTask(id)
    case TaskCastError =>
      r := Reply(400, "Invalid task ID format", None);
    case TaskMissing =>
      r := Reply(404, "Task not found", None);
    case TaskFound(task, project) =>
      if project.None? {
        r := Reply(500, "Error updating task", None);
      } else if project.value.user != caller {
        r := Reply(401, "Not authorized to update this task", None);
      } else {
        if Truthy(projectId) && projectId.value != task.project {
          match db.FindProject(projectId.value)
          case CastError =>
            return Reply(400, "Invalid task ID format", None);
          case Missing =>
            return Reply(404, "Project not found", None);
          case Found(destination) =>
            if destination.user != caller {
              return Reply(401, "Not authorized to move task to this project", None);
            }
        }
        if Truthy(projectId) {
          CanonicalIdempotent(projectId.value);
        }
        var target := if Truthy(projectId) then Canonical(projectId.value) else task.project;
        var updated := ApplyTaskUpdate(task, title, description, status, dueDate, target, now);
        db.tasks := db.tasks[Canonical(id) := updated];
        r := Reply(200, "Task updated successfully", Some(updated));
      }
  }

  /**
   * Naming the task's own project in another spelling counts as a move, but
   * the destination check finds that same project, so the update goes ahead.
   */
  lemma RespelledOwnProjectPassesMoveCheck(db: Db, caller: Id, id: Id, p: Id)
    requires db.TaskAccess(caller, id) == 200 && IsObjectId(p)
    requires Canonical(p) == Canonical(db.tasks[Canonical(id)].project)
    ensures db.ProjectAccess(caller, p) == 200
  {
  }

  /**
   * updateTaskStatus: a missing status or one outside the API's three
   * values is refused with 400 before any lookup. After the ownership check
   * only that task's status changes, and only if the whole document then
   * passes the schema on save; otherwise 500 and nothing is written. The
   * update time is refreshed only when the status actually changes (an
   * assignment of the same value leaves the document unmodified). The reply
   * carries the saved task with its parent project populated.
   */
  method UpdateTaskStatus(db: Db, caller: Id, id: Id, status: Option<string>, now: Timestamp) returns (r: Reply<PopulatedTask>)
    modifies db`tasks
    ensures !(Truthy(status) && status.value in ApiStatuses) ==> r == Reply(400, InvalidStatusMessage, None)
    ensures Truthy(status) && status.value in ApiStatuses && old(db.TaskAccess(caller, id)) != 200 ==>
      r.code == old(db.TaskAccess(caller, id))
    ensures Truthy(status) && status.value in ApiStatuses && old(db.TaskAccess(caller, id)) == 200 ==>
      var task := old(db.tasks[Canonical(id)]);
      var updated := task.(status := status.value, updatedAt := if status.value == task.status then task.updatedAt else now);
      if DocumentErrors(updated, db.taskStatuses) == {} then
        && r == Reply(200, "Task status updated successfully", Some(PopulatedTask(updated, db.projects[Canonical(task.project)])))
        && db.tasks == old(db.tasks)[Canonical(id) := updated]
      else
        r == Reply(500, "Error updating task status", None)
    ensures r.code != 200 ==> db.tasks == old(db.tasks) && r.body.None?
  {
    if !Truthy(status) || status.value !in ApiStatuses {
      return Reply(400, InvalidStatusMessage, None);
    }
    match db.FindTask(id)
    case TaskCastError =>
      r := Reply(400, "Invalid task ID format", None);
    case TaskMissing =>
      r := Reply(404, "Task not found", None);
    case TaskFound(task, project) =>
      if project.None? {
        r := Reply(500, "Error updating task status", None);
      } else if project.value.user != caller {
        r := Reply(401, "Not authorized to update this task", None);
      } else {
        var updated := task.(status := status.value, updatedAt := if status.value == task.status then task.updatedAt else now);
        if DocumentErrors(updated, db.taskStatuses) != {} {
          r := Reply(500, "Error updating task status", None);
        } else {
          db.tasks := db.tasks[Canonical(id) := updated];
          r := Reply(200, "Task status updated successfully", Some(PopulatedTask(updated, project.value)));
        }
      }
  }

  /** deleteTask: after the ownership check, removes that one task and nothing else. */
  method DeleteTask(db: Db, caller: Id, id: Id) returns (r: Reply<Task>)
    modifies db`tasks
    ensures r.code == old(db.TaskAccess(caller, id))
    ensures r.body.None?
    ensures r.code != 200 ==> db.tasks == old(db.tasks)
    ensures r.code == 200 ==> db.tasks == old(db.tasks) - {Canonical(id)} && r.message == "Task deleted successfully"
  {
    match db.FindTask(id)
    case TaskCastError =>
      r := Reply(400, "Invalid task ID format", None);
    case TaskMissing =>
      r := Reply(404, "Task not found", None);
    case TaskFound(task, project) =>
      if project.None? {
        r := Reply(500, "Error deleting task", None);
      } else if project.value.user != caller {
        r := Reply(401, "Not authorized to delete this task", None);
      } else {
        db.tasks := db.tasks - {Canonical(id)};
        r := Reply(200, "Task deleted successfully", None);
      }
  }
}
