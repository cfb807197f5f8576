/**
 * The project document and the validation its schema applies on save: a
 * required, trimmed title, an optional description, a required owner and
 * creation and update timestamps.
 */
module ProjectModel {
  import opened Common
  import Strings

  /** A stored project; `user` is the owner's id. */
  datatype Project = Project(
    title: string,
    description: Option<string>,
    user: Id,
    createdAt: Timestamp,
    updatedAt: Timestamp)

  /** The fields handed to `new Project({...})`; absent ones are `None`. */
  datatype ProjectFields = ProjectFields(title: Option<string>, description: Option<string>, user: Option<Id>)

  datatype ValidationError = TitleRequired | UserRequired

  /**
   * Builds and validates a new document the way `new Project(fields).save()`
   * does: the title is trimmed and must then be non-empty, the owner must be
   * present, and both timestamps are the time of the save.
   */
  function NewProject(f: ProjectFields, now: Timestamp): (r: Result<Project, set<ValidationError>>)
    ensures r.Ok? <==> f.title.Some? && Strings.Trim(f.title.value) != "" && f.user.Some? && f.user.value != ""
    ensures r.Ok? ==>
      && r.value.title == Strings.Trim(f.title.value)
      && r.value.description == f.description
      && r.value.user == f.user.value
      && r.value.createdAt == now && r.value.updatedAt == now
    ensures r.Err? ==> (TitleRequired in r.error <==> f.title.None? || Strings.Trim(f.title.value) == "")
    ensures r.Err? ==> (UserRequired in r.error <==> f.user.None? || f.user.value == "")
  {
    var title := Strings.Trim(f.title.GetOr(""));
    var user := f.user.GetOr("");
    var errs := (if title == "" then {TitleRequired} else {}) + (if user == "" then {UserRequired} else {});
    if errs == {} then Ok(Project(title, f.description, user, now, now)) else Err(errs)
  }

  /** A title made only of white space is refused like a missing one. */
  lemma BlankTitleRefused(f: ProjectFields, now: Timestamp)
    requires f.title.Some? && forall i :: 0 <= i < |f.title.value| ==> Strings.IsWhitespace(f.title.value[i])
    ensures NewProject(f, now).Err? && TitleRequired in NewProject(f, now).error
  {
  }
}
