/**
 * What the client holds: tasks and projects as the server sends them, the
 * signed-in user, and the browser's local storage, plus the date ordering
 * of projects that the dashboard and the project store share.
 */
module ClientModel {
  import opened Common
  import Sorting

  /** A task as the client receives it; `id` is its `_id`. */
  datatype TaskItem = TaskItem(
    id: Id,
    title: string,
    description: Option<string>,
    status: string,
    dueDate: Option<Timestamp>,
    project: Id,
    createdAt: Timestamp)

  /** A project as the client receives it; `id` is its `_id`. */
  datatype ProjectItem = ProjectItem(
    id: Id,
    title: string,
    description: Option<string>,
    user: Id,
    createdAt: Timestamp,
    updatedAt: Timestamp)

  /** The user object the server returns with a token. */
  datatype AuthUser = AuthUser(id: Id, name: string, email: string)

  function TaskKey(t: TaskItem): Id { t.id }
  function ProjectKey(p: ProjectItem): Id { p.id }

  /** A task's id differs from the given one: the test that removes that task from a list. */
  function TaskIdIsNot(id: Id): TaskItem -> bool {
    (t: TaskItem) => t.id != id
  }

  /** A project's id differs from the given one. */
  function ProjectIdIsNot(id: Id): ProjectItem -> bool {
    (p: ProjectItem) => p.id != id
  }

  /** The task with its status replaced and every other field kept. */
  function WithStatus(status: string): TaskItem -> TaskItem {
    (t: TaskItem) => t.(status := status)
  }

  /** Whatever task is given, the server's version of it. */
  function ReplacedBy(task: TaskItem): TaskItem -> TaskItem {
    (_: TaskItem) => task
  }

  /**
   * The browser's local storage, reduced to the two entries the client
   * uses: the token and the (serialised) user.
   */
  class LocalStorage {
    var token: Option<string>
    var user: Option<AuthUser>

    constructor (token: Option<string>, user: Option<AuthUser>)
      ensures this.token == token && this.user == user
    {
      this.token, this.user := token, user;
    }
  }

  /** What a thunk's request came to: a reply with success, a reply without it, or a thrown error. */
  datatype CallOutcome<+T> =
    | Succeeded(payload: T)
    | Failed(message: Option<string>)
    | Threw(errorMessage: Option<string>)

  /** How a thunk settles: fulfilled with its payload, or rejected with a reason. */
  datatype Settled<+T> = Fulfilled(value: T) | Rejected(reason: string)

  /**
   * `rejectWithValue(data.message || failedMessage)` for an unsuccessful
   * reply and `rejectWithValue(error.message || errorMessage)` for a thrown
   * error: the reason is the message given when it is a non-empty string,
   * and the thunk's own default otherwise.
   */
  function Settle<T>(outcome: CallOutcome<T>, failedMessage: string, errorMessage: string): (s: Settled<T>)
    ensures s.Fulfilled? <==> outcome.Succeeded?
    ensures s.Fulfilled? ==> s.value == outcome.payload
    ensures outcome.Failed? && Truthy(outcome.message) ==> s == Rejected(outcome.message.value)
    ensures outcome.Failed? && !Truthy(outcome.message) ==> s == Rejected(failedMessage)
    ensures outcome.Threw? && Truthy(outcome.errorMessage) ==> s == Rejected(outcome.errorMessage.value)
    ensures outcome.Threw? && !Truthy(outcome.errorMessage) ==> s == Rejected(errorMessage)
  {
    match outcome
    case Succeeded(payload) => Fulfilled(payload)
    case Failed(message) => Rejected(OrElse(message, failedMessage))
    case Threw(message) => Rejected(OrElse(message, errorMessage))
  }

  /**
   * The comparator `new Date(b.createdAt) - new Date(a.createdAt)` (newest
   * first) or its reverse (oldest first), read as "a may come before b".
   */
  predicate CreatedInOrder(newestFirst: bool, a: ProjectItem, b: ProjectItem) {
    if newestFirst then a.createdAt >= b.createdAt else a.createdAt <= b.createdAt
  }

  /** Either creation-time comparator is a total preorder, so sorting by it is well defined. */
  lemma CreatedOrderIsTotalPreorder(newestFirst: bool)
    ensures Sorting.TotalPreorder((a: ProjectItem, b: ProjectItem) => CreatedInOrder(newestFirst, a, b))
  {
  }

  /**
   * Sorting a copy of the projects by creation time: newest first when the
   * order is "newest", oldest first for any other value. The result holds
   * exactly the same projects.
   */
  method SortByCreatedAt(projects: seq<ProjectItem>, order: string) returns (r: seq<ProjectItem>)
    ensures multiset(r) == multiset(projects)
    ensures order == "newest" ==> forall i, j :: 0 <= i < j < |r| ==> r[i].createdAt >= r[j].createdAt
    ensures order != "newest" ==> forall i, j :: 0 <= i < j < |r| ==> r[i].createdAt <= r[j].createdAt
  {
    var newestFirst := order == "newest";
    CreatedOrderIsTotalPreorder(newestFirst);
    r := Sorting.SortedCopy(projects, (a: ProjectItem, b: ProjectItem) => CreatedInOrder(newestFirst, a, b));
  }
}
