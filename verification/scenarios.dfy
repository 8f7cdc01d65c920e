/** Concrete sessions of the store, checked against the views. */
module Scenarios {
  import opened ProjectStore
  import opened Views

  /** Empty store, start a project, save "Home", add a task to it, delete the
      project: the project is gone and the placeholder is back, while its task
      is still stored under the old id. */
  lemma HomeProjectSession(pid: Id, tid: Id)
    ensures StartAddProject(Initial).selection == Creating
    ensures var s2 := AddProject(StartAddProject(Initial), ProjectData("Home", "chores", "2024-05-01"), pid);
            && s2.selection == Selected(pid) && |s2.projects| == 1
            && MainContent(s2) == ProjectDetail(Project("Home", "chores", "2024-05-01", pid), [])
    ensures var s3 := AddTask(AddProject(StartAddProject(Initial), ProjectData("Home", "chores", "2024-05-01"), pid), "mow lawn", tid);
            && TasksFor(s3.tasks, Selected(pid)) == [Task("mow lawn", Selected(pid), tid)]
            && var s4 := DeleteProject(s3, pid);
            && s4.projects == [] && s4.selection == NoSelection && MainContent(s4) == NoProjectSelected
            && TasksFor(s4.tasks, Selected(pid)) == [Task("mow lawn", Selected(pid), tid)]
  {
  }

  /** Two tasks added to one project come back newest first. */
  lemma TwoTasksNewestFirst(s: State, p: Id, t1: Id, t2: Id)
    requires s.selection == Selected(p)
    ensures TasksFor(AddTask(AddTask(s, "first", t1), "second", t2).tasks, Selected(p))
         == [Task("second", Selected(p), t2), Task("first", Selected(p), t1)] + TasksFor(s.tasks, Selected(p))
  {
    var s1 := AddTask(s, "first", t1);
    var older := TasksFor(s.tasks, Selected(p));
    AddTaskNewestFirst(s, "first", t1, Selected(p));
    assert TasksFor(s1.tasks, Selected(p)) == [Task("first", Selected(p), t1)] + older;
    AddTaskNewestFirst(s1, "second", t2, Selected(p));
    assert [Task("second", Selected(p), t2)] + ([Task("first", Selected(p), t1)] + older)
        == [Task("second", Selected(p), t2), Task("first", Selected(p), t1)] + older;
  }
}
