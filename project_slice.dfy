/**
 * The project store of the client (a Redux slice): the project list, the
 * project being viewed, and the loading flag.
 */
module ProjectSlice {
  import opened Common
  import opened ClientModel
  import ListOps

  class ProjectState {
    var projects: seq<ProjectItem>
    var currentProject: Option<ProjectItem>
    var loading: bool

    /** The initial state: no projects, none being viewed, not loading. */
    constructor ()
      ensures projects == [] && currentProject.None? && !loading
    {
      projects, currentProject, loading := [], None, false;
    }

    /**
     * sortProjects: the same projects, newest first for "newest" and oldest
     * first for any other order.
     */
    method SortProjects(sortOrder: string)
      modifies this`projects
      ensures multiset(projects) == multiset(old(projects))
      ensures sortOrder == "newest" ==> forall i, j :: 0 <= i < j < |projects| ==> projects[i].createdAt >= projects[j].createdAt
      ensures sortOrder != "newest" ==> forall i, j :: 0 <= i < j < |projects| ==> projects[i].createdAt <= projects[j].createdAt
    {
      projects := SortByCreatedAt(projects, sortOrder);
    }

    /** clearCurrentProject: nothing is being viewed; the list is untouched. */
    method ClearCurrentProject()
      modifies this`currentProject
      ensures currentProject.None?
    {
      currentProject := None;
    }

    /** fetchProjects.fulfilled: the list is the fetched one. */
    method FetchProjectsFulfilled(payload: seq<ProjectItem>)
      modifies this`projects, this`loading
      ensures projects == payload && !loading
    {
      projects := payload;
      loading := false;
    }

    /** fetchProjectById.fulfilled: the fetched project is being viewed; the list is untouched. */
    method FetchProjectByIdFulfilled(payload: ProjectItem)
      modifies this`currentProject, this`loading
      ensures currentProject == Some(payload) && !loading
    {
      currentProject := Some(payload);
      loading := false;
    }

    /** createProject.fulfilled: the new project goes in front of the others, which keep their order. */
    method CreateProjectFulfilled(payload: ProjectItem)
      modifies this`projects, this`loading
      ensures |projects| == |old(projects)| + 1 && projects[0] == payload && projects[1..] == old(projects)
      ensures !loading
    {
      projects := [payload] + projects;
      loading := false;
    }

    /**
     * deleteProject.fulfilled: every project with that id goes, the rest keep
     * their order; the project being viewed is left as it was.
     */
    method DeleteProjectFulfilled(projectId: Id)
      modifies this`projects, this`loading
      ensures projects == ListOps.Filter(old(projects), ProjectIdIsNot(projectId))
      ensures !loading
    {
      projects := ListOps.Filter(projects, ProjectIdIsNot(projectId));
      loading := false;
    }
  }

  /** After deleteProject.fulfilled no project with that id is left, and every other project keeps its multiplicity. */
  lemma DeleteRemovesExactlyThatProject(projects: seq<ProjectItem>, projectId: Id)
    ensures forall i :: 0 <= i < |ListOps.Filter(projects, ProjectIdIsNot(projectId))| ==>
      ListOps.Filter(projects, ProjectIdIsNot(projectId))[i].id != projectId
    ensures forall p :: multiset(ListOps.Filter(projects, ProjectIdIsNot(projectId)))[p]
                     == (if p.id == projectId then 0 else multiset(projects)[p])
  {
    forall p {
      ListOps.FilterCounts(projects, ProjectIdIsNot(projectId), p);
    }
  }

  /** Deleting an id that no project has leaves the list exactly as it was. */
  lemma DeleteOfAbsentIdIsNoOp(projects: seq<ProjectItem>, projectId: Id)
    requires forall i :: 0 <= i < |projects| ==> projects[i].id != projectId
    ensures ListOps.Filter(projects, ProjectIdIsNot(projectId)) == projects
  {
    ListOps.FilterKeepsAll(projects, ProjectIdIsNot(projectId));
  }
}
