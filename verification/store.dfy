/** The project/task store: the single state object held by the application
    root and the updaters its handlers pass to the state setter. Each updater is
    a pure function from the previous state to the next one; the class
    ProjectsHook at the end holds the state and applies them. */
module ProjectStore {
  import opened Seqs

  /** Project and task identifiers. The application draws them from
      Math.random(); here every operation that creates a record receives its
      new identifier as an argument. */
  type Id = int

  /** Which main-panel mode is active. The source encodes NoSelection as
      `undefined`, Creating as `null` and Selected(id) as the id itself. */
  datatype Selection = NoSelection | Creating | Selected(id: Id)

  /** What the new-project form submits. */
  datatype ProjectData = ProjectData(title: string, description: string, dueDate: string)

  datatype Project = Project(title: string, description: string, dueDate: string, id: Id)

  /** A task records the selection value current when it was added, whatever
      that value was, as its projectId. */
  datatype Task = Task(text: string, projectId: Selection, id: Id)

  datatype State = State(selection: Selection, projects: seq<Project>, tasks: seq<Task>)

  /** The state the store starts with: nothing selected, no projects, no tasks. */
  const Initial: State := State(NoSelection, [], [])

  function ProjectId(p: Project): Id { p.id }
  function TaskId(t: Task): Id { t.id }

  /** The callbacks handed to `filter` by the two delete handlers. */
  function ProjectIdIsNot(id: Id): Project -> bool { (p: Project) => p.id != id }
  function TaskIdIsNot(id: Id): Task -> bool { (t: Task) => t.id != id }

  /** Identifiers are unique within each collection. */
  ghost predicate Valid(s: State) {
    UniqueKeys(s.projects, ProjectId) && UniqueKeys(s.tasks, TaskId)
  }

  /** handleAddTask: a task carrying the current selection goes to the front. */
  function AddTask(s: State, text: string, taskId: Id): (r: State)
    ensures |r.tasks| == |s.tasks| + 1
    ensures r.tasks[0] == Task(text, s.selection, taskId) && r.tasks[1..] == s.tasks
    ensures r.selection == s.selection && r.projects == s.projects
  {
    s.(tasks := [Task(text, s.selection, taskId)] + s.tasks)
  }

  /** handleDeleteTask: exactly the tasks with that id disappear. */
  function DeleteTask(s: State, id: Id): (r: State)
    ensures forall i :: 0 <= i < |r.tasks| ==> r.tasks[i] in s.tasks && r.tasks[i].id != id
    ensures forall i :: 0 <= i < |s.tasks| && s.tasks[i].id != id ==> s.tasks[i] in r.tasks
    ensures KeyAbsent(s.tasks, TaskId, id) ==> r == s
    ensures r.selection == s.selection && r.projects == s.projects
  {
    s.(tasks := Filter(s.tasks, TaskIdIsNot(id)))
  }

  /** handleSelectProject: no check that a project with that id exists. */
  function SelectProject(s: State, id: Id): (r: State)
    ensures r.selection == Selected(id)
    ensures r.projects == s.projects && r.tasks == s.tasks
  {
    s.(selection := Selected(id))
  }

  /** handleStartAddProject: switch to the new-project form. */
  function StartAddProject(s: State): (r: State)
    ensures r.selection == Creating
    ensures r.projects == s.projects && r.tasks == s.tasks
  {
    s.(selection := Creating)
  }

  /** handleCancelAddProject: back to nothing selected. */
  function CancelAddProject(s: State): (r: State)
    ensures r.selection == NoSelection
    ensures r.projects == s.projects && r.tasks == s.tasks
  {
    s.(selection := NoSelection)
  }

  /** handleAddProject: the new project goes to the end and becomes selected. */
  function AddProject(s: State, data: ProjectData, newId: Id): (r: State)
    ensures |r.projects| == |s.projects| + 1
    ensures r.projects[..|s.projects|] == s.projects
    ensures r.projects[|s.projects|] == Project(data.title, data.description, data.dueDate, newId)
    ensures r.selection == Selected(newId) && r.tasks == s.tasks
  {
    var p := Project(data.title, data.description, data.dueDate, newId);
    s.(projects := s.projects + [p], selection := Selected(newId))
  }

  /** handleDeleteProject: exactly the projects with that id disappear, the
      selection is reset whichever project was selected, and the tasks stay,
      including those of the deleted project. */
  function DeleteProject(s: State, id: Id): (r: State)
    ensures forall i :: 0 <= i < |r.projects| ==> r.projects[i] in s.projects && r.projects[i].id != id
    ensures forall i :: 0 <= i < |s.projects| && s.projects[i].id != id ==> s.projects[i] in r.projects
    ensures KeyAbsent(s.projects, ProjectId, id) ==> r.projects == s.projects
    ensures r.selection == NoSelection && r.tasks == s.tasks
  {
    s.(projects := Filter(s.projects, ProjectIdIsNot(id)), selection := NoSelection)
  }

  /** Deleting a task keeps the remaining tasks in their stored order: the
      removal acts on each part of the list independently. */
  lemma DeleteTaskKeepsOrder(s: State, id: Id, front: seq<Task>, back: seq<Task>)
    requires s.tasks == front + back
    ensures DeleteTask(s, id).tasks == DeleteTask(s.(tasks := front), id).tasks + DeleteTask(s.(tasks := back), id).tasks
  {
    FilterConcat(front, back, TaskIdIsNot(id));
  }

  /** Deleting a project keeps the remaining projects in their stored order. */
  lemma DeleteProjectKeepsOrder(s: State, id: Id, front: seq<Project>, back: seq<Project>)
    requires s.projects == front + back
    ensures DeleteProject(s, id).projects
         == DeleteProject(s.(projects := front), id).projects + DeleteProject(s.(projects := back), id).projects
  {
    FilterConcat(front, back, ProjectIdIsNot(id));
  }

  /** Deleting a freshly added task undoes the addition. */
  lemma AddTaskThenDeleteTask(s: State, text: string, taskId: Id)
    requires KeyAbsent(s.tasks, TaskId, taskId)
    ensures DeleteTask(AddTask(s, text, taskId), taskId) == s
  {
  }

  /** Deleting a freshly added project undoes the addition, except that the
      selection ends up reset. */
  lemma AddProjectThenDeleteProject(s: State, data: ProjectData, newId: Id)
    requires KeyAbsent(s.projects, ProjectId, newId)
    ensures DeleteProject(AddProject(s, data, newId), newId) == s.(selection := NoSelection)
  {
    var p := Project(data.title, data.description, data.dueDate, newId);
    FilterConcat(s.projects, [p], ProjectIdIsNot(newId));
    assert [p][1..] == [];
  }

  /** One user event, as dispatched to one of the seven handlers. The
      identifiers of the records a handler creates are part of the event. */
  datatype Action =
    | AddTaskOp(text: string, taskId: Id)
    | DeleteTaskOp(id: Id)
    | SelectProjectOp(id: Id)
    | StartAddProjectOp
    | CancelAddProjectOp
    | AddProjectOp(data: ProjectData, newId: Id)
    | DeleteProjectOp(id: Id)

  function Step(s: State, a: Action): State {
    match a
    case AddTaskOp(text, taskId) => AddTask(s, text, taskId)
    case DeleteTaskOp(id) => DeleteTask(s, id)
    case SelectProjectOp(id) => SelectProject(s, id)
    case StartAddProjectOp => StartAddProject(s)
    case CancelAddProjectOp => CancelAddProject(s)
    case AddProjectOp(data, newId) => AddProject(s, data, newId)
    case DeleteProjectOp(id) => DeleteProject(s, id)
  }

  /** The events processed one after another, each to completion. */
  function Run(s: State, actions: seq<Action>): State
    decreases |actions|
  {
    if actions == [] then s else Run(Step(s, actions[0]), actions[1..])
  }

  /** The new identifier of an event, if any, is not already in use. */
  ghost predicate IdFresh(s: State, a: Action) {
    match a
    case AddTaskOp(_, taskId) => KeyAbsent(s.tasks, TaskId, taskId)
    case AddProjectOp(_, newId) => KeyAbsent(s.projects, ProjectId, newId)
    case _ => true
  }

  /** Every event of the run draws a fresh identifier. */
  ghost predicate FreshRun(s: State, actions: seq<Action>)
    decreases |actions|
  {
    actions == [] || (IdFresh(s, actions[0]) && FreshRun(Step(s, actions[0]), actions[1..]))
  }

  lemma StepKeepsValid(s: State, a: Action)
    requires Valid(s) && IdFresh(s, a)
    ensures Valid(Step(s, a))
  {
    match a
    case AddTaskOp(text, taskId) =>
      PrependKeepsUniqueKeys(Task(text, s.selection, taskId), s.tasks, TaskId);
    case DeleteTaskOp(id) =>
      FilterKeepsUniqueKeys(s.tasks, TaskIdIsNot(id), TaskId);
    case AddProjectOp(data, newId) =>
      AppendKeepsUniqueKeys(s.projects, Project(data.title, data.description, data.dueDate, newId), ProjectId);
    case DeleteProjectOp(id) =>
      FilterKeepsUniqueKeys(s.projects, ProjectIdIsNot(id), ProjectId);
    case _ =>
  }

  /** Identifiers stay unique over any sequence of events, provided every new
      identifier is fresh; the random identifiers of the source give this only
      with high probability. */
  lemma {:induction false} RunKeepsValid(s: State, actions: seq<Action>)
    requires Valid(s) && FreshRun(s, actions)
    ensures Valid(Run(s, actions))
    decreases |actions|
  {
    if actions != [] {
      StepKeepsValid(s, actions[0]);
      RunKeepsValid(Step(s, actions[0]), actions[1..]);
    }
  }

  lemma InitialValid()
    ensures Valid(Initial) && Initial.selection == NoSelection
    ensures Initial.projects == [] && Initial.tasks == []
  {
  }

  /** No event edits a record: every task and project after an event either
      was there before or is the one record the event creates, and a new task
      carries the selection current at the time. */
  lemma StepNeverEditsRecords(s: State, a: Action)
    ensures forall i :: 0 <= i < |Step(s, a).tasks| ==>
      Step(s, a).tasks[i] in s.tasks || (a.AddTaskOp? && Step(s, a).tasks[i] == Task(a.text, s.selection, a.taskId))
    ensures forall i :: 0 <= i < |Step(s, a).projects| ==>
      Step(s, a).projects[i] in s.projects
      || (a.AddProjectOp? && Step(s, a).projects[i] == Project(a.data.title, a.data.description, a.data.dueDate, a.newId))
  {
  }

  /** Starting and cancelling the creation of a project are idempotent. */
  lemma SelectionResetsIdempotent(s: State)
    ensures StartAddProject(StartAddProject(s)) == StartAddProject(s)
    ensures CancelAddProject(CancelAddProject(s)) == CancelAddProject(s)
  {
  }

  /** The state object held by the application root (the `useProjects` hook, the
      root App component). Each handler replaces the state by its updater's
      result. */
  class ProjectsHook {
    var projectsState: State

    constructor ()
      ensures projectsState == Initial
    {
      projectsState := Initial;
    }

    method HandleAddTask(text: string, taskId: Id)
      modifies this
      ensures projectsState == AddTask(old(projectsState), text, taskId)
    {
      projectsState := AddTask(projectsState, text, taskId);
    }

    method HandleDeleteTask(id: Id)
      modifies this
      ensures projectsState == DeleteTask(old(projectsState), id)
    {
      projectsState := DeleteTask(projectsState, id);
    }

    method HandleSelectProject(id: Id)
      modifies this
      ensures projectsState == SelectProject(old(projectsState), id)
    {
      projectsState := SelectProject(projectsState, id);
    }

    method HandleStartAddProject()
      modifies this
      ensures projectsState == StartAddProject(old(projectsState))
    {
      projectsState := StartAddProject(projectsState);
    }

    method HandleCancelAddProject()
      modifies this
      ensures projectsState == CancelAddProject(old(projectsState))
    {
      projectsState := CancelAddProject(projectsState);
    }

    method HandleAddProject(data: ProjectData, newId: Id)
      modifies this
      ensures projectsState == AddProject(old(projectsState), data, newId)
    {
      projectsState := AddProject(projectsState, data, newId);
    }

    method HandleDeleteProject(id: Id)
      modifies this
      ensures projectsState == DeleteProject(old(projectsState), id)
    {
      projectsState := DeleteProject(projectsState, id);
    }
  }
}
