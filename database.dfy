/**
 * The document store the controllers work against: one collection each of
 * users, projects and tasks, keyed by ObjectId, and the outcome of looking
 * a document up by an id taken from a request.
 */
module Database {
  import opened Common
  import opened TaskModel
  import opened ProjectModel

  /** A stored user; `password` holds the hash, never the plaintext. */
  datatype User = User(name: string, email: string, password: string)

  /** `findById(id)`: the cast of `id` to an ObjectId can fail before any lookup. */
  datatype Lookup<T> = CastError | Missing | Found(doc: T)

  /** `Task.findById(id).populate("project")`: the task with its project, if that still exists. */
  datatype TaskLookup = TaskCastError | TaskMissing | TaskFound(task: Task, project: Option<Project>)

  /** An HTTP reply: status code, message and, on success, a body. */
  datatype Reply<T> = Reply(code: int, message: string, body: Option<T>)

  /**
   * ASCII upper-case letters become lower case; every other character
   * stays. A hexadecimal digit of either case becomes a lower-case one, and
   * nothing else does.
   */
  function LowerAscii(c: char): (d: char)
    ensures IsLowerHexDigit(d) <==> IsHexDigit(c)
  {
    if 'A' <= c <= 'Z' then (c as int + 32) as char else c
  }

  /**
   * The lower-case spelling of an id. An ObjectId is stored and printed in
   * this form, and the cast reads both cases of each hexadecimal digit as
   * the same digit.
   */
  function Canonical(id: Id): (c: Id)
    ensures |c| == |id|
    ensures forall i :: 0 <= i < |id| ==> c[i] == LowerAscii(id[i])
  {
    seq(|id|, i requires 0 <= i < |id| => LowerAscii(id[i]))
  }

  /** Spelling an id in lower case a second time changes nothing. */
  lemma CanonicalIdempotent(id: Id)
    ensures Canonical(Canonical(id)) == Canonical(id)
  {
  }

  predicate IsHexDigit(c: char) {
    '0' <= c <= '9' || 'a' <= c <= 'f' || 'A' <= c <= 'F'
  }

  predicate IsLowerHexDigit(c: char) {
    '0' <= c <= '9' || 'a' <= c <= 'f'
  }

  /**
   * The strings that cast to an ObjectId: 24 hexadecimal digits in either
   * case, that is exactly the strings whose lower-case spelling is 24
   * lower-case hexadecimal digits.
   */
  predicate IsObjectId(s: string): (b: bool)
    ensures b <==> |s| == 24 && forall i :: 0 <= i < |s| ==> IsLowerHexDigit(Canonical(s)[i])
  {
    var c := Canonical(s);
    assert forall i :: 0 <= i < |s| ==> (IsLowerHexDigit(c[i]) <==> IsHexDigit(s[i])) by {
      forall i | 0 <= i < |s| ensures IsLowerHexDigit(c[i]) <==> IsHexDigit(s[i]) {
        assert c[i] == LowerAscii(s[i]);
      }
    }
    |s| == 24 && forall i :: 0 <= i < |s| ==> IsHexDigit(s[i])
  }

  /** Two spellings of the same lower-case id both cast or both fail. */
  lemma CastIgnoresCase(a: Id, b: Id)
    requires Canonical(a) == Canonical(b)
    ensures IsObjectId(a) <==> IsObjectId(b)
  {
  }

  class Db {
    var users: map<Id, User>
    var projects: map<Id, Project>
    var tasks: map<Id, Task>
    /** The status enumeration the task schema validates against on save. */
    const taskStatuses: seq<string>

    /** An empty store whose task schema uses the given status enumeration. */
    constructor (taskStatuses: seq<string>)
      ensures this.taskStatuses == taskStatuses
      ensures users == map[] && projects == map[] && tasks == map[]
    {
      this.taskStatuses := taskStatuses;
      users, projects, tasks := map[], map[], map[];
    }

    /** `Project.findById(id)`: the id is cast, so either spelling of a stored id finds it. */
    function FindProject(id: Id): (r: Lookup<Project>)
      reads this
      ensures r.CastError? <==> !IsObjectId(id)
      ensures r.Missing? <==> IsObjectId(id) && Canonical(id) !in projects
      ensures r.Found? ==> Canonical(id) in projects && r.doc == projects[Canonical(id)]
    {
      if !IsObjectId(id) then CastError
      else if Canonical(id) in projects then Found(projects[Canonical(id)])
      else Missing
    }

    /** `Task.findById(id).populate("project")`. */
    function FindTask(id: Id): (r: TaskLookup)
      reads this
      ensures r.TaskCastError? <==> !IsObjectId(id)
      ensures r.TaskMissing? <==> IsObjectId(id) && Canonical(id) !in tasks
      ensures r.TaskFound? ==> Canonical(id) in tasks && r.task == tasks[Canonical(id)]
      ensures r.TaskFound? ==> (r.project.Some? <==> Canonical(r.task.project) in projects)
      ensures r.TaskFound? && r.project.Some? ==> r.project.value == projects[Canonical(r.task.project)]
    {
      if !IsObjectId(id) then TaskCastError
      else if Canonical(id) !in tasks then TaskMissing
      else
        var t := tasks[Canonical(id)];
        var p := Canonical(t.project);
        TaskFound(t, if p in projects then Some(projects[p]) else None)
    }

    /**
     * The status the ownership check on project `id` settles on: 400 when
     * the id does not cast, 404 when no such project exists, 401 when it
     * belongs to someone else, 200 when the caller owns it.
     */
    function ProjectAccess(caller: Id, id: Id): (code: int)
      reads this
      ensures code in {200, 400, 401, 404}
      ensures code == 400 <==> !IsObjectId(id)
      ensures code == 404 <==> IsObjectId(id) && Canonical(id) !in projects
      ensures code == 401 <==> IsObjectId(id) && Canonical(id) in projects && projects[Canonical(id)].user != caller
      ensures code == 200 <==> IsObjectId(id) && OwnsProject(caller, id)
    {
      match FindProject(id)
      case CastError => 400
      case Missing => 404
      case Found(p) => if p.user != caller then 401 else 200
    }

    /**
     * The status the ownership check on task `id` settles on, through its
     * parent project: 400 when the id does not cast, 404 when no such task
     * exists, 500 when its project is gone (reading the owner of the
     * missing project throws), 401 when the project belongs to someone
     * else, 200 when the caller owns it.
     */
    function TaskAccess(caller: Id, id: Id): (code: int)
      reads this
      ensures code in {200, 400, 401, 404, 500}
      ensures code == 400 <==> !IsObjectId(id)
      ensures code == 404 <==> IsObjectId(id) && Canonical(id) !in tasks
      ensures code == 500 <==> IsObjectId(id) && Orphaned(id)
      ensures code == 401 <==> IsObjectId(id) && Canonical(id) in tasks && !Orphaned(id) && !OwnsTask(caller, id)
      ensures code == 200 <==> IsObjectId(id) && OwnsTask(caller, id)
    {
      match FindTask(id)
      case TaskCastError => 400
      case TaskMissing => 404
      case TaskFound(_, project) =>
        if project.None? then 500
        else if project.value.user != caller then 401
        else 200
    }

    /**
     * Two spellings of one id find the same project and the same task, and
     * the ownership checks settle on the same status for both.
     */
    lemma SpellingsFindSameDocument(caller: Id, a: Id, b: Id)
      requires Canonical(a) == Canonical(b)
      ensures FindProject(a) == FindProject(b) && ProjectAccess(caller, a) == ProjectAccess(caller, b)
      ensures FindTask(a) == FindTask(b) && TaskAccess(caller, a) == TaskAccess(caller, b)
    {
      CastIgnoresCase(a, b);
    }

    /** The caller owns the project with this id (in either spelling). */
    predicate OwnsProject(caller: Id, projectId: Id)
      reads this
    {
      Canonical(projectId) in projects && projects[Canonical(projectId)].user == caller
    }

    /** The caller owns the task with this id, through its parent project. */
    predicate OwnsTask(caller: Id, taskId: Id)
      reads this
    {
      Canonical(taskId) in tasks && OwnsProject(caller, tasks[Canonical(taskId)].project)
    }

    /** The task's parent project no longer exists (projects are deleted without their tasks). */
    predicate Orphaned(taskId: Id)
      reads this
    {
      Canonical(taskId) in tasks && Canonical(tasks[Canonical(taskId)].project) !in projects
    }
  }
}
