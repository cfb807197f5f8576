/**
 * The task document and the validation its schema applies when a document
 * is saved: a required, trimmed title; a status from the schema's
 * enumeration defaulting to "todo"; a required project reference; optional
 * description and due date; creation and update timestamps.
 */
module TaskModel {
  import opened Common
  import Strings

  /** The status enumeration as the schema declares it. */
  const SchemaStatuses: seq<string> := ["todo", "in-progress", "completed"]

  /** The statuses the task controller and the client work with. */
  const ApiStatuses: seq<string> := ["todo", "in-progress", "done"]

  /** The schema's `default` for status. */
  const DefaultStatus: string := "todo"

  /** A stored task. `project` references a project document. */
  datatype Task = Task(
    title: string,
    description: Option<string>,
    status: string,
    dueDate: Option<Timestamp>,
    project: Id,
    createdAt: Timestamp,
    updatedAt: Timestamp)

  /** The fields handed to `new Task({...})`; absent ones are `None`. */
  datatype TaskFields = TaskFields(
    title: Option<string>,
    description: Option<string>,
    status: Option<string>,
    dueDate: Option<Timestamp>,
    project: Option<Id>)

  /** The validator failures a save can report (Mongoose reports all at once). */
  datatype ValidationError = TitleRequired | StatusNotInEnum(status: string) | ProjectRequired

  /** The failures of validating a stored document against a status enumeration. */
  function DocumentErrors(t: Task, statuses: seq<string>): (errs: set<ValidationError>)
    ensures errs == {} <==> t.title != "" && t.status in statuses && t.project != ""
    ensures TitleRequired in errs <==> t.title == ""
    ensures StatusNotInEnum(t.status) in errs <==> t.status !in statuses
    ensures ProjectRequired in errs <==> t.project == ""
  {
    (if t.title == "" then {TitleRequired} else {})
    + (if t.status in statuses then {} else {StatusNotInEnum(t.status)})
    + (if t.project == "" then {ProjectRequired} else {})
  }

  /**
   * Builds and validates a new document the way `new Task(fields).save()`
   * does: the title is trimmed, a missing status takes the default, and the
   * result is refused unless every validator passes.
   */
  function NewTask(f: TaskFields, statuses: seq<string>, now: Timestamp): (r: Result<Task, set<ValidationError>>)
    ensures r.Ok? <==>
      && f.title.Some? && Strings.Trim(f.title.value) != ""
      && f.status.GetOr(DefaultStatus) in statuses
      && f.project.Some? && f.project.value != ""
    ensures r.Ok? ==>
      && r.value.title == Strings.Trim(f.title.value)
      && r.value.status == f.status.GetOr(DefaultStatus)
      && r.value.project == f.project.value
      && r.value.description == f.description
      && r.value.dueDate == f.dueDate
      && r.value.createdAt == now && r.value.updatedAt == now
    ensures r.Err? ==> r.error != {}
  {
    var t := Task(
      Strings.Trim(f.title.GetOr("")),
      f.description,
      f.status.GetOr(DefaultStatus),
      f.dueDate,
      f.project.GetOr(""),
      now,
      now);
    var errs := DocumentErrors(t, statuses);
    if errs == {} then Ok(t) else Err(errs)
  }

  /**
   * As written, the schema refuses "done", although the controller and the
   * client treat it as a valid status: saving a task whose status is "done"
   * always fails.
   */
  lemma DoneRejectedBySchema(t: Task)
    requires t.status == "done"
    ensures "done" in ApiStatuses
    ensures StatusNotInEnum("done") in DocumentErrors(t, SchemaStatuses)
  {
  }

  /** The enumeration the rest of the system evidently intends. */
  const IntendedStatuses: seq<string> := ApiStatuses

  /**
   * With the intended enumeration, every status the API accepts passes the
   * schema, and a task with a title and a project saves with any of them.
   */
  lemma IntendedStatusesAcceptApi(t: Task, s: string)
    requires s in ApiStatuses && t.title != "" && t.project != ""
    ensures DocumentErrors(t.(status := s), IntendedStatuses) == {}
  {
  }

  /** A created task without a given status is "todo". */
  lemma NewTaskDefaultsToTodo(f: TaskFields, statuses: seq<string>, now: Timestamp)
    requires f.status.None? && NewTask(f, statuses, now).Ok?
    ensures NewTask(f, statuses, now).value.status == "todo"
  {
  }

  /** A stored title never carries white space at either end. */
  lemma NewTaskTitleTrimmed(f: TaskFields, statuses: seq<string>, now: Timestamp)
    requires NewTask(f, statuses, now).Ok?
    ensures var title := NewTask(f, statuses, now).value.title;
      title != "" && !Strings.IsWhitespace(title[0]) && !Strings.IsWhitespace(title[|title| - 1])
  {
  }
}
