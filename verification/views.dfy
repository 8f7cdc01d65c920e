/** What the main panel shows, computed from the store's state: the lookup of
    the selected project, the tasks of that project, and the choice between the
    new-project form, the placeholder, the project detail and nothing. */
module Views {
  import opened Wrappers
  import opened Seqs
  import opened ProjectStore

  /** `projects.find(p => p.id === id)`: the first project with that id. */
  function FindProject(projects: seq<Project>, id: Id): (r: Option<Project>)
    ensures r.None? <==> KeyAbsent(projects, ProjectId, id)
    ensures r.Some? ==> exists i :: 0 <= i < |projects| && projects[i] == r.value && r.value.id == id
                                    && KeyAbsent(projects[..i], ProjectId, id)
  {
    if projects == [] then None
    else if projects[0].id == id then Some(projects[0])
    else
      var r := FindProject(projects[1..], id);
      FindInTail(projects, id, r);
      r
  }

  lemma FindInTail(projects: seq<Project>, id: Id, r: Option<Project>)
    requires projects != [] && projects[0].id != id
    requires r.Some? ==> exists i :: 0 <= i < |projects[1..]| && projects[1..][i] == r.value && r.value.id == id
                                     && KeyAbsent(projects[1..][..i], ProjectId, id)
    ensures r.Some? ==> exists i :: 0 <= i < |projects| && projects[i] == r.value && r.value.id == id
                                    && KeyAbsent(projects[..i], ProjectId, id)
  {
    if r.Some? {
      var i :| 0 <= i < |projects[1..]| && projects[1..][i] == r.value && r.value.id == id
               && KeyAbsent(projects[1..][..i], ProjectId, id);
      assert projects[..i + 1] == [projects[0]] + projects[1..][..i];
      assert projects[i + 1] == r.value;
    }
  }

  /** The project the selection refers to; the sentinels `undefined` and `null`
      never equal a project id, so only Selected(id) can find one. */
  function SelectedProject(s: State): (r: Option<Project>)
    ensures r.Some? <==> s.selection.Selected? && !KeyAbsent(s.projects, ProjectId, s.selection.id)
    ensures r.Some? ==> r.value in s.projects && s.selection == Selected(r.value.id)
    ensures r.Some? ==> exists i :: 0 <= i < |s.projects| && s.projects[i] == r.value
                                    && KeyAbsent(s.projects[..i], ProjectId, r.value.id)
  {
    match s.selection
    case Selected(id) => FindProject(s.projects, id)
    case _ => None
  }

  function HasProjectId(sel: Selection): Task -> bool { (t: Task) => t.projectId == sel }

  /** `tasks.filter(t => t.projectId === selection)`. */
  function TasksFor(tasks: seq<Task>, sel: Selection): (r: seq<Task>)
    ensures forall i :: 0 <= i < |r| ==> r[i] in tasks && r[i].projectId == sel
    ensures forall i :: 0 <= i < |tasks| && tasks[i].projectId == sel ==> tasks[i] in r
    ensures |r| <= |tasks|
  {
    Filter(tasks, HasProjectId(sel))
  }

  /** The main panel's content. */
  datatype Content =
    | NewProjectForm
    | NoProjectSelected
    | ProjectDetail(project: Project, tasks: seq<Task>)
    | NoContent

  /** The if/else dispatch of the full application: `null` shows the form,
      `undefined` the placeholder, an id with a matching project its detail
      view, and an id without one nothing at all. */
  function MainContent(s: State): (c: Content)
    ensures c == NewProjectForm <==> s.selection == Creating
    ensures c == NoProjectSelected <==> s.selection == NoSelection
    ensures c.ProjectDetail? <==> s.selection.Selected? && !KeyAbsent(s.projects, ProjectId, s.selection.id)
    ensures c.ProjectDetail? ==> c.project in s.projects && s.selection == Selected(c.project.id)
                                 && c.tasks == TasksFor(s.tasks, s.selection)
    ensures c.ProjectDetail? ==> SelectedProject(s) == Some(c.project)
    ensures c == NoContent <==> s.selection.Selected? && KeyAbsent(s.projects, ProjectId, s.selection.id)
  {
    if s.selection == Creating then NewProjectForm
    else if s.selection == NoSelection then NoProjectSelected
    else
      match SelectedProject(s)
      case Some(p) => ProjectDetail(p, TasksFor(s.tasks, s.selection))
      case None => NoContent
  }

  /** The two-way dispatch of the reduced application, which has no detail view. */
  function ReducedContent(sel: Selection): (c: Content)
    ensures c == NewProjectForm <==> sel == Creating
    ensures c == NoProjectSelected <==> sel == NoSelection
    ensures c == NoContent <==> sel.Selected?
  {
    if sel == Creating then NewProjectForm
    else if sel == NoSelection then NoProjectSelected
    else NoContent
  }

  /** A new task shows up first in its project's list; the lists of every other
      selection value are unchanged. */
  lemma AddTaskNewestFirst(s: State, text: string, taskId: Id, sel: Selection)
    ensures TasksFor(AddTask(s, text, taskId).tasks, sel)
         == (if sel == s.selection then [Task(text, s.selection, taskId)] else []) + TasksFor(s.tasks, sel)
  {
  }

  /** Adding a project with a fresh id shows that very project, with the
      submitted fields, in the detail view. */
  lemma AddProjectShowsIt(s: State, data: ProjectData, newId: Id)
    requires KeyAbsent(s.projects, ProjectId, newId)
    ensures SelectedProject(AddProject(s, data, newId))
         == Some(Project(data.title, data.description, data.dueDate, newId))
    ensures MainContent(AddProject(s, data, newId))
         == ProjectDetail(Project(data.title, data.description, data.dueDate, newId), TasksFor(s.tasks, Selected(newId)))
  {
  }

  /** Selecting an id that no project has leaves the main panel empty. */
  lemma SelectDanglingShowsNothing(s: State, id: Id)
    requires KeyAbsent(s.projects, ProjectId, id)
    ensures MainContent(SelectProject(s, id)) == NoContent
  {
  }

  /** Deleting any project, selected or not, brings back the placeholder, and
      the tasks of the deleted project remain stored. */
  lemma DeleteProjectShowsPlaceholder(s: State, id: Id, sel: Selection)
    ensures MainContent(DeleteProject(s, id)) == NoProjectSelected
    ensures TasksFor(DeleteProject(s, id).tasks, sel) == TasksFor(s.tasks, sel)
  {
  }

  /** Starting a new project shows the form and cancelling shows the placeholder,
      in both variants of the dispatch. */
  lemma StartAndCancelViews(s: State)
    ensures MainContent(StartAddProject(s)) == NewProjectForm
    ensures ReducedContent(StartAddProject(s).selection) == NewProjectForm
    ensures MainContent(CancelAddProject(s)) == NoProjectSelected
  {
  }

  /** In the reduced application, adding a project appends it, selects it, and
      leaves the panel empty since that variant has no detail view. */
  lemma ReducedAddProjectShowsNothing(s: State, data: ProjectData, newId: Id)
    ensures AddProject(s, data, newId).projects == s.projects + [Project(data.title, data.description, data.dueDate, newId)]
    ensures ReducedContent(AddProject(s, data, newId).selection) == NoContent
  {
  }
}
