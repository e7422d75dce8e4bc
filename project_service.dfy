/**
 * The project registry (Services/ProjectService.cs): the project list of the
 * application data, the current project and the id stored beside it, and the
 * ProjectChanged notifications, recorded in a log. Saving the data file is
 * not modelled. Project ids are Guids in the source; here they are given
 * strings, and a new one must differ from every id the service knows.
 *
 * `CurrentProject` is a reference to a project object in the source. The model
 * keeps a copy and refreshes it whenever the listed project with the same id
 * changes; since ids are distinct this is exactly what sharing the object
 * gives, including after the project has left the list (see DeleteProject).
 */
module ProjectRegistry {
  import opened Wrappers
  import opened Projects

  datatype ProjectAction = Created | Updated | Deleted | Switched

  datatype ProjectChange = ProjectChange(action: ProjectAction, project: Project)

  const DefaultProjectName: string := "默认项目"
  const DefaultProjectDescription: string := "默认工作项目"

  predicate DistinctIds(ps: seq<Project>) {
    forall i, j :: 0 <= i < j < |ps| ==> ps[i].id != ps[j].id
  }

  predicate HasId(ps: seq<Project>, id: string) {
    exists i :: 0 <= i < |ps| && ps[i].id == id
  }

  /** The position of the first project with the given id (`FirstOrDefault`). */
  function IndexOfId(ps: seq<Project>, id: string): (r: Option<nat>)
    ensures r.Some? ==> r.value < |ps| && ps[r.value].id == id
                        && forall j :: 0 <= j < r.value ==> ps[j].id != id
    ensures r.None? <==> !HasId(ps, id)
    decreases |ps|
  {
    if ps == [] then None
    else if ps[0].id == id then Some(0)
    else
      var rest := IndexOfId(ps[1..], id);
      if rest.None? then
        assert forall j :: 1 <= j < |ps| ==> ps[j].id == ps[1..][j - 1].id;
        None
      else Some(rest.value + 1)
  }

  /** `GetProjectById`. */
  function FindById(ps: seq<Project>, id: string): (r: Option<Project>)
    ensures r.Some? <==> HasId(ps, id)
    ensures r.Some? ==> r.value in ps && r.value.id == id
  {
    var i := IndexOfId(ps, id);
    if i.Some? then Some(ps[i.value]) else None
  }

  /** The position of the first project whose id differs from `id`. */
  function IndexOfOther(ps: seq<Project>, id: string): (r: Option<nat>)
    ensures r.Some? ==> r.value < |ps| && ps[r.value].id != id
                        && forall j :: 0 <= j < r.value ==> ps[j].id == id
    ensures r.None? ==> forall j :: 0 <= j < |ps| ==> ps[j].id == id
    decreases |ps|
  {
    if ps == [] then None
    else if ps[0].id != id then Some(0)
    else
      var rest := IndexOfOther(ps[1..], id);
      if rest.None? then None else Some(rest.value + 1)
  }

  /** With distinct ids and two or more projects, some other project exists. */
  lemma OtherProjectExists(ps: seq<Project>, id: string)
    requires DistinctIds(ps) && |ps| > 1
    ensures IndexOfOther(ps, id).Some?
  {
    if ps[0].id == id {
      assert ps[1..][0].id != id;
    }
  }

  /** `GetActiveProjects`: the active projects, in list order. */
  function ActiveProjects(ps: seq<Project>): (r: seq<Project>)
    ensures forall i :: 0 <= i < |r| ==> r[i].isActive && r[i] in ps
    ensures forall p :: p in ps && p.isActive ==> p in r
    ensures |r| <= |ps|
    decreases |ps|
  {
    if ps == [] then []
    else
      var rest := ActiveProjects(ps[1..]);
      assert forall p :: p in ps[1..] ==> p in ps;
      if ps[0].isActive then [ps[0]] + rest else rest
  }

  /** Filtering respects order: the active projects of a concatenation are
      those of each part, in turn. */
  lemma {:induction false} ActiveProjectsAppend(ps: seq<Project>, qs: seq<Project>)
    ensures ActiveProjects(ps + qs) == ActiveProjects(ps) + ActiveProjects(qs)
    decreases |ps|
  {
    if ps != [] {
      assert (ps + qs)[0] == ps[0];
      assert (ps + qs)[1..] == ps[1..] + qs;
      ActiveProjectsAppend(ps[1..], qs);
    } else {
      assert ps + qs == qs;
    }
  }

  /** The partial update of `UpdateProject`: every field whose argument is
      supplied takes it; every other field keeps its value. */
  function ApplyUpdate(p: Project, name: Option<string>, color: Option<string>,
                       description: Option<string>, isActive: Option<bool>): (q: Project)
    ensures q.name == name.GetOr(p.name) && q.color == color.GetOr(p.color)
    ensures q.description == description.GetOr(p.description) && q.isActive == isActive.GetOr(p.isActive)
    ensures q.id == p.id && q.createdAt == p.createdAt
    ensures q.totalSeconds == p.totalSeconds && q.sessionCount == p.sessionCount
  {
    var p1 := if name.Some? then p.(name := name.value) else p;
    var p2 := if color.Some? then p1.(color := color.value) else p1;
    var p3 := if description.Some? then p2.(description := description.value) else p2;
    if isActive.Some? then p3.(isActive := isActive.value) else p3
  }

  /** The list without its element at `i` (`List.Remove` of that element). */
  function RemoveAt(ps: seq<Project>, i: nat): (r: seq<Project>)
    requires i < |ps|
    ensures |r| == |ps| - 1
    ensures forall j :: 0 <= j < i ==> r[j] == ps[j]
    ensures forall j :: i <= j < |r| ==> r[j] == ps[j + 1]
  {
    ps[..i] + ps[i + 1..]
  }

  /** Removing the project with a given id from a list of distinct ids keeps
      every other project and no project with that id. */
  lemma RemoveAtExactly(ps: seq<Project>, i: nat)
    requires i < |ps| && DistinctIds(ps)
    ensures DistinctIds(RemoveAt(ps, i))
    ensures forall p :: p in RemoveAt(ps, i) <==> p in ps && p.id != ps[i].id
  {
    var r := RemoveAt(ps, i);
    forall p | p in ps && p.id != ps[i].id ensures p in r {
      var k :| 0 <= k < |ps| && ps[k] == p;
      if k < i { assert r[k] == p; } else { assert k > i; assert r[k - 1] == p; }
    }
    forall p | p in r ensures p in ps && p.id != ps[i].id {
      var k :| 0 <= k < |r| && r[k] == p;
      if k < i { assert p == ps[k]; } else { assert p == ps[k + 1]; }
    }
  }

  /** The current-project copy after the listed project `p` has changed: it
      follows `p` when it is that project. */
  function Follow(current: Option<Project>, p: Project): (r: Option<Project>)
    ensures r.Some? <==> current.Some?
    ensures current.Some? && current.value.id == p.id ==> r == Some(p)
    ensures current.Some? && current.value.id != p.id ==> r == current
  {
    if current.Some? && current.value.id == p.id then Some(p) else current
  }

  /** The project `LoadCurrentProject` creates when the list is empty. */
  function DefaultProject(id: string, createdAt: int): (p: Project)
    ensures p.id == id && p.name == "默认项目" && p.isActive
  {
    NewProject(id, createdAt).(name := DefaultProjectName, color := DefaultColor,
                                description := DefaultProjectDescription)
  }

  /** The project `LoadCurrentProject` selects: the one with the stored id,
      else the first. */
  function SelectCurrent(ps: seq<Project>, storedId: Option<string>): (p: Project)
    requires |ps| > 0
    ensures p in ps
    ensures storedId.Some? && storedId.value != "" && HasId(ps, storedId.value) ==> p.id == storedId.value
    ensures !(storedId.Some? && storedId.value != "" && HasId(ps, storedId.value)) ==> p == ps[0]
  {
    if storedId.Some? && storedId.value != "" && FindById(ps, storedId.value).Some? then
      FindById(ps, storedId.value).value
    else ps[0]
  }

  class ProjectService {
    var projects: seq<Project>
    var currentProjectId: Option<string>
    var currentProject: Option<Project>
    var changes: seq<ProjectChange>

    /** Ids are distinct, at least one project is listed, a current project is
        selected and its id is the stored one, and when it is listed the copy
        agrees with the list. */
    ghost predicate Valid()
      reads this
    {
      && DistinctIds(projects)
      && |projects| >= 1
      && currentProject.Some?
      && currentProjectId == Some(currentProject.value.id)
      && (forall i :: 0 <= i < |projects| && projects[i].id == currentProject.value.id ==>
            projects[i] == currentProject.value)
    }

    /** An id no project the service knows carries (a fresh Guid in the source). */
    ghost predicate FreshId(id: string)
      reads this
    {
      !HasId(projects, id) && (currentProject.Some? ==> currentProject.value.id != id)
    }

    /** The constructor's `LoadCurrentProject` over the stored list and id:
        an empty list gets the default project, then the current project is the
        one with the stored id, or else the first. */
    constructor (stored: seq<Project>, storedCurrentId: Option<string>, defaultId: string, now: int)
      requires DistinctIds(stored)
      ensures Valid()
      ensures stored == [] ==> projects == [DefaultProject(defaultId, now)]
      ensures stored != [] ==> projects == stored
      ensures stored == [] ==> currentProject == Some(DefaultProject(defaultId, now))
      ensures stored != [] ==> currentProject == Some(SelectCurrent(stored, storedCurrentId))
      ensures changes == []
    {
      var ps := stored;
      var storedId := storedCurrentId;
      if |ps| == 0 {
        ps := [DefaultProject(defaultId, now)];
        storedId := Some(defaultId);
      }
      var current: Option<Project> := None;
      if storedId.Some? && storedId.value != "" {
        current := FindById(ps, storedId.value);
      }
      if current.None? && |ps| > 0 {
        current := Some(ps[0]);
        storedId := Some(ps[0].id);
      }
      projects := ps;
      currentProjectId := storedId;
      currentProject := current;
      changes := [];
    }

    /** `GetAllProjects`. */
    function AllProjects(): seq<Project>
      reads this
    {
      projects
    }

    /** `GetActiveProjects`. */
    function GetActiveProjects(): (r: seq<Project>)
      reads this
      ensures forall p :: p in r <==> p in projects && p.isActive
    {
      ActiveProjects(projects)
    }

    /** `GetProjectById`. */
    function GetProjectById(id: string): (r: Option<Project>)
      reads this
      ensures r.Some? <==> HasId(projects, id)
      ensures r.Some? ==> r.value in projects && r.value.id == id
    {
      FindById(projects, id)
    }

    /** Appends one new active project and returns it; the projects already
        listed and the current project are untouched. */
    method CreateProject(name: string, color: string, description: string, id: string, now: int)
      returns (p: Project)
      requires Valid() && FreshId(id)
      modifies this
      ensures Valid()
      ensures p == NewProject(id, now).(name := name, color := color, description := description)
      ensures p.isActive && p.totalSeconds == 0 && p.sessionCount == 0
      ensures projects == old(projects) + [p]
      ensures currentProject == old(currentProject) && currentProjectId == old(currentProjectId)
      ensures changes == old(changes) + [ProjectChange(Created, p)]
    {
      p := NewProject(id, now).(name := name, color := color, description := description, createdAt := now,
                               isActive := true);
      projects := projects + [p];
      changes := changes + [ProjectChange(Created, p)];
    }

    /** Overwrites the supplied fields of the project with the given id;
        false, with nothing changed, for an unknown id. */
    method UpdateProject(id: string, name: Option<string>, color: Option<string>,
                         description: Option<string>, isActive: Option<bool>) returns (ok: bool)
      requires Valid()
      modifies this
      ensures Valid()
      ensures ok <==> old(HasId(projects, id))
      ensures !ok ==> projects == old(projects) && currentProject == old(currentProject)
                      && changes == old(changes)
      ensures ok ==>
        var i := IndexOfId(old(projects), id).value;
        var q := ApplyUpdate(old(projects)[i], name, color, description, isActive);
        && projects == old(projects)[i := q]
        && currentProject == Follow(old(currentProject), q)
        && changes == old(changes) + [ProjectChange(Updated, q)]
      ensures currentProjectId == old(currentProjectId)
    {
      var i := IndexOfId(projects, id);
      if i.None? {
        return false;
      }
      var q := ApplyUpdate(projects[i.value], name, color, description, isActive);
      projects := projects[i.value := q];
      currentProject := Follow(currentProject, q);
      changes := changes + [ProjectChange(Updated, q)];
      return true;
    }

    /** Makes the project with the given id current; false, with nothing
        changed, when it is unknown or inactive. */
    method SwitchProject(id: string) returns (ok: bool)
      requires Valid()
      modifies this
      ensures Valid()
      ensures ok <==> old(FindById(projects, id)).Some? && old(FindById(projects, id)).value.isActive
      ensures ok ==> currentProject == old(FindById(projects, id)) && currentProjectId == Some(id)
                     && changes == old(changes) + [ProjectChange(Switched, currentProject.value)]
      ensures !ok ==> currentProject == old(currentProject) && currentProjectId == old(currentProjectId)
                      && changes == old(changes)
      ensures projects == old(projects)
    {
      var p := FindById(projects, id);
      if p.None? || !p.value.isActive {
        return false;
      }
      currentProject := p;
      currentProjectId := Some(id);
      changes := changes + [ProjectChange(Switched, p.value)];
      return true;
    }

    /** Deletes the project with the given id unless it is unknown or the last
        one. When it is the current project, a switch to the first other
        project is attempted first; that switch fails when the other project is
        inactive, and then the removed project stays current. */
    method DeleteProject(id: string) returns (ok: bool)
      requires Valid()
      modifies this
      ensures Valid()
      ensures ok <==> old(HasId(projects, id)) && old(|projects|) > 1
      ensures !ok ==> projects == old(projects) && currentProject == old(currentProject)
                      && currentProjectId == old(currentProjectId) && changes == old(changes)
      ensures ok ==>
        var i := IndexOfId(old(projects), id).value;
        var removed := old(projects)[i];
        && projects == RemoveAt(old(projects), i)
        && (old(currentProject).value.id != id ==>
              currentProject == old(currentProject) && changes == old(changes) + [ProjectChange(Deleted, removed)])
        && (old(currentProject).value.id == id ==>
              IndexOfOther(old(projects), id).Some? &&
              var other := old(projects)[IndexOfOther(old(projects), id).value];
              && (other.isActive ==>
                    currentProject == Some(other)
                    && changes == old(changes) + [ProjectChange(Switched, other), ProjectChange(Deleted, removed)])
              && (!other.isActive ==>
                    currentProject == old(currentProject)
                    && changes == old(changes) + [ProjectChange(Deleted, removed)]))
    {
      var i := IndexOfId(projects, id);
      if i.None? {
        return false;
      }
      if |projects| <= 1 {
        return false;
      }
      var removed := projects[i.value];
      if currentProject.Some? && currentProject.value.id == id {
        OtherProjectExists(projects, id);
        var other := IndexOfOther(projects, id);
        if other.Some? {
          var _ := SwitchProject(projects[other.value].id);
        }
      }
      RemoveAtExactly(projects, i.value);
      projects := RemoveAt(projects, i.value);
      changes := changes + [ProjectChange(Deleted, removed)];
      return true;
    }

    /** Adds a finished session to the project's totals; an unknown id is ignored. */
    method UpdateProjectStats(projectId: string, durationSeconds: int)
      requires Valid()
      modifies this
      ensures Valid()
      ensures !old(HasId(projects, projectId)) ==> projects == old(projects) && currentProject == old(currentProject)
      ensures old(HasId(projects, projectId)) ==>
        var i := IndexOfId(old(projects), projectId).value;
        var q := old(projects)[i].(totalSeconds := old(projects)[i].totalSeconds + durationSeconds,
                                   sessionCount := old(projects)[i].sessionCount + 1);
        && projects == old(projects)[i := q]
        && currentProject == Follow(old(currentProject), q)
      ensures currentProjectId == old(currentProjectId) && changes == old(changes)
    {
      var i := IndexOfId(projects, projectId);
      if i.None? {
        return;
      }
      var p := projects[i.value];
      var q := p.(totalSeconds := p.totalSeconds + durationSeconds, sessionCount := p.sessionCount + 1);
      projects := projects[i.value := q];
      currentProject := Follow(currentProject, q);
    }
  }
}
