/**
 * The project handlers. Each resolves the project by id, answers 404 when
 * it is missing and 401 when it belongs to someone else, and only then
 * reads, writes or deletes it. The caller's id is the authenticated user
 * the request carries.
 */
module ProjectController {
  import opened Common
  import opened ProjectModel
  import opened Database
  import Strings

  /** The body of the listing reply: `{count, projects}`. */
  datatype ProjectList = ProjectList(count: nat, projects: map<Id, Project>)

  /**
   * The document `findByIdAndUpdate(id, {title, description})` leaves:
   * absent fields are dropped from the update, a given title is trimmed by
   * the schema's setter (no validator runs, so it may end up empty), and
   * the update time is refreshed. The owner and creation time never change.
   */
  function ApplyProjectUpdate(p: Project, title: Option<string>, description: Option<string>, now: Timestamp): (q: Project)
    ensures q.user == p.user && q.createdAt == p.createdAt && q.updatedAt == now
    ensures q.title == if title.Some? then Strings.Trim(title.value) else p.title
    ensures q.description == if description.Some? then description else p.description
  {
    p.(title := if title.Some? then Strings.Trim(title.value) else p.title,
       description := if description.Some? then description else p.description,
       updatedAt := now)
  }

  /**
   * createProject: the owner is always the caller, never a field of the
   * request; a title that is missing or blank after trimming makes the save
   * fail, which is reported as 500.
   */
  method CreateProject(db: Db, caller: Id, title: Option<string>, description: Option<string>, newId: Id, now: Timestamp)
    returns (r: Reply<Project>)
    requires newId !in db.projects
    modifies db`projects
    ensures r.code == 201 || r.code == 500
    ensures r.code == 201 <==> NewProject(ProjectFields(title, description, Some(caller)), now).Ok?
    ensures r.code == 201 ==>
      && r.message == "Project created successfully"
      && r.body == Some(NewProject(ProjectFields(title, description, Some(caller)), now).value)
      && r.body.value.user == caller
      && db.projects == old(db.projects)[newId := r.body.value]
    ensures r.code == 500 ==> r == Reply(500, "Error creating project", None) && db.projects == old(db.projects)
  {
    var doc := NewProject(ProjectFields(title, description, Some(caller)), now);
    if doc.Err? {
      return Reply(500, "Error creating project", None);
    }
    db.projects := db.projects[newId := doc.value];
    r := Reply(201, "Project created successfully", Some(doc.value));
  }

  /** getProjects: exactly the caller's projects, and their number. */
  method GetProjects(db: Db, caller: Id) returns (r: Reply<ProjectList>)
    ensures r.code == 200 && r.body.Some?
    ensures forall id :: id in r.body.value.projects <==> id in db.projects && db.projects[id].user == caller
    ensures forall id :: id in r.body.value.projects ==> r.body.value.projects[id] == db.projects[id]
    ensures r.body.value.count == |r.body.value.projects|
  {
    var owned := map id | id in db.projects && db.projects[id].user == caller :: db.projects[id];
    r := Reply(200, "", Some(ProjectList(|owned|, owned)));
  }

  /**
   * getProjectById: 400 for an id that does not cast, 404 for a missing
   * project, 401 for someone else's; the project itself otherwise.
   */
  method GetProjectById(db: Db, caller: Id, id: Id) returns (r: Reply<Project>)
    ensures r.code == db.ProjectAccess(caller, id)
    ensures r.code == 200 <==> r.body.Some?
    ensures r.code == 200 ==> r.body.value == db.projects[Canonical(id)]
    ensures r.code == 404 ==> r.message == "Project not found"
    ensures r.code == 401 ==> r.message == "Not authorized to access this project"
    ensures r.code == 400 ==> r.message == "Invalid project ID format"
  {
    match db.FindProject(id)
    case CastError =>
      r := Reply(400, "Invalid project ID format", None);
    case Missing =>
      r := Reply(404, "Project not found", None);
    case Found(project) =>
      if project.user != caller {
        r := Reply(401, "Not authorized to access this project", None);
      } else {
        r := Reply(200, "", Some(project));
      }
  }

  /**
   * updateProject: after the same checks, changes only the title and the
   * description of that one project; the owner stays as it was.
   */
  method UpdateProject(db: Db, caller: Id, id: Id, title: Option<string>, description: Option<string>, now: Timestamp)
    returns (r: Reply<Project>)
    modifies db`projects
    ensures r.code == old(db.ProjectAccess(caller, id))
    ensures r.code != 200 ==> db.projects == old(db.projects) && r.body.None?
    ensures r.code == 200 ==>
      && r.message == "Project updated successfully"
      && db.projects == old(db.projects)[Canonical(id) := ApplyProjectUpdate(old(db.projects[Canonical(id)]), title, description, now)]
      && r.body == Some(db.projects[Canonical(id)])
      && db.projects[Canonical(id)].user == caller
  {
    match db.FindProject(id)
    case CastError =>
      r := Reply(400, "Invalid project ID format", None);
    case Missing =>
      r := Reply(404, "Project not found", None);
    case Found(project) =>
      if project.user != caller {
        r := Reply(401, "Not authorized to update this project", None);
      } else {
        var updated := ApplyProjectUpdate(project, title, description, now);
        db.projects := db.projects[Canonical(id) := updated];
        r := Reply(200, "Project updated successfully", Some(updated));
      }
  }

  /**
   * deleteProject: after the same checks, removes that one project and
   * nothing else; tasks that reference it stay in the store.
   */
  method DeleteProject(db: Db, caller: Id, id: Id) returns (r: Reply<Project>)
    modifies db`projects
    ensures r.code == old(db.ProjectAccess(caller, id))
    ensures r.body.None?
    ensures r.code != 200 ==> db.projects == old(db.projects)
    ensures r.code == 200 ==> db.projects == old(db.projects) - {Canonical(id)} && r.message == "Project deleted successfully"
    ensures db.tasks == old(db.tasks)
  {
    match db.FindProject(id)
    case CastError =>
      r := Reply(400, "Invalid project ID format", None);
    case Missing =>
      r := Reply(404, "Project not found", None);
    case Found(project) =>
      if project.user != caller {
        r := Reply(401, "Not authorized to delete this project", None);
      } else {
        db.projects := db.projects - {Canonical(id)};
        r := Reply(200, "Project deleted successfully", None);
      }
  }
}
