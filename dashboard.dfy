/**
 * The dashboard page: its list of projects, the creation-date order the
 * user picks, and signing out.
 */
module Dashboard {
  import opened Common
  import opened ClientModel

  class DashboardPage {
    var projects: seq<ProjectItem>
    var sortOrder: string

    /** The page before projects are loaded: empty, newest first. */
    constructor ()
      ensures projects == [] && sortOrder == "newest"
    {
      projects, sortOrder := [], "newest";
    }

    /**
     * handleSort: the chosen order is remembered and the list becomes a
     * sorted copy of the same projects, newest first for "newest" and oldest
     * first for any other value.
     */
    method HandleSort(order: string)
      modifies this
      ensures sortOrder == order
      ensures multiset(projects) == multiset(old(projects))
      ensures order == "newest" ==> forall i, j :: 0 <= i < j < |projects| ==> projects[i].createdAt >= projects[j].createdAt
      ensures order != "newest" ==> forall i, j :: 0 <= i < j < |projects| ==> projects[i].createdAt <= projects[j].createdAt
    {
      sortOrder := order;
      projects := SortByCreatedAt(projects, order);
    }

    /** handleLogout: only the stored token is removed; the stored user stays. */
    method HandleLogout(storage: LocalStorage)
      modifies storage`token
      ensures storage.token.None? && storage.user == old(storage.user)
    {
      storage.token := None;
    }
  }
}
