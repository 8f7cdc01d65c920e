# Project/task store of ReactTodoList2025, modelled in Dafny

The application is a browser project manager: a sidebar of projects and a main
panel that shows a placeholder, a new-project form, or the selected project with
its tasks. All its behaviour beyond rendering lives in one state object
`{ selectedProjectId, projects, tasks }` and the handlers that replace it. The
same store appears three times in the repository: in the `useProjects` hook
(`src/App2/useProjects.js`), in the root `App` of `src/App1/App1.jsx`, and in a
reduced form without tasks in `src/App.jsx`. It is modelled once.

- `wrappers.dfy` (module `Wrappers`): `Option`.
- `seqs.dfy` (module `Seqs`): `Filter`, the order-preserving `Array.prototype.filter`,
  and key uniqueness.
- `text.dfy` (module `Text`): ECMAScript `String.prototype.trim` over the full
  WhiteSpace and LineTerminator sets, and the forms' blank test.
- `store.dfy` (module `ProjectStore`): the state, the seven updaters as pure
  `previous state -> next state` functions, a reducer `Step`/`Run` over
  sequences of events, the uniqueness invariant, and the class `ProjectsHook`
  whose methods are the handlers (each replaces `projectsState` by its updater's
  result).
- `views.dfy` (module `Views`): the selected-project lookup, the task filter and
  the content dispatch of the full application and of the reduced one.
- `forms.dfy` (module `Forms`): `NewProject.handleSave` as a function and the
  `NewTask` component as a class with its local state `enteredTask`.
- `scenarios.dfy` (module `Scenarios`): whole sessions checked against the views.

The selection is `NoSelection` (the source's `undefined`), `Creating` (`null`) or
`Selected(id)`. A task stores the selection value current when it was added as
its `projectId`, whatever that value is. Identifiers, drawn from `Math.random()`
in the source, are arguments of the operations that create records; the
operations accept any identifier, and uniqueness is proved only for runs in
which each new identifier is fresh (`FreshRun`). The `App1.jsx` copies of
`NewTask.handleClick` (99-106) and `NewProject.handleSave` (270-291) are the same
code as the `src/components/NewTask.jsx` and `src/App2/NewProject.jsx` ones and
are covered by the same members. The `App.jsx` store is the same `State` with a
task list that stays empty; it only has `StartAddProject` and `AddProject`.

Where the code departs from what such a store is usually expected to do, the
model follows the code: deleting an unknown project id leaves both lists unchanged but still
resets the selection; deletion removes every record with the id, not only the
first; nothing in the code guarantees that identifiers are unique; and deleting a
project leaves its tasks stored.

## Model

| member | source | states |
|---|---|---|
| `Seqs.Filter` | src/App2/useProjects.js:28 | the result holds exactly the accepted elements of the input (which elements, not their order or multiplicity; those follow with `Seqs.FilterConcat`), is never longer, equals the input when every element is accepted and is empty when none is |
| `Seqs.FilterConcat` | src/App2/useProjects.js:71 | filtering distributes over concatenation, so the kept elements stay in their relative order |
| `Seqs.FilterKeepsUniqueKeys` | src/App1/App1.jsx:425 | filtering a list whose ids are unique leaves ids unique |
| `Text.Trim` | src/components/NewTask.jsx:21 | the result is a contiguous slice of the input with only whitespace before and after it, a non-empty result starts and ends with non-whitespace, and the result is empty exactly for all-whitespace input |
| `Text.IsBlank` | src/App2/NewProject.jsx:27-31 | `trim().length === 0` holds exactly when every character is ECMAScript whitespace |
| `ProjectStore.InitialValid` | src/App2/useProjects.js:4-8 | the store starts with nothing selected, no projects and no tasks, and satisfies the uniqueness invariant |
| `ProjectStore.AddTask` | src/App2/useProjects.js:10-23 | the new task, whose projectId is the current selection value, is at index 0, the old tasks follow in order, and projects and selection are unchanged |
| `ProjectStore.DeleteTask` | src/App2/useProjects.js:25-30 | the remaining tasks are exactly the old tasks without the id, an unknown id changes nothing, and projects and selection are unchanged |
| `ProjectStore.SelectProject` | src/App2/useProjects.js:32-37 | the selection becomes the id whether or not a project has it; both lists are unchanged |
| `ProjectStore.StartAddProject` | src/App2/useProjects.js:39-44 | the selection becomes Creating; both lists are unchanged |
| `ProjectStore.CancelAddProject` | src/App2/useProjects.js:46-51 | the selection becomes NoSelection; both lists are unchanged |
| `ProjectStore.AddProject` | src/App2/useProjects.js:53-66 | exactly one project, the submitted data plus the new id, is appended after the old projects, it becomes selected, and tasks are unchanged |
| `ProjectStore.DeleteProject` | src/App2/useProjects.js:68-74 | the remaining projects are exactly the old ones without the id, an unknown id leaves the projects unchanged, the selection is always reset, and tasks are unchanged |
| `ProjectStore.DeleteTaskKeepsOrder` | src/App1/App1.jsx:422-427 | deleting a task acts on each part of the task list independently, so the remaining tasks keep their order |
| `ProjectStore.DeleteProjectKeepsOrder` | src/App1/App1.jsx:470-476 | deleting a project keeps the remaining projects in their order |
| `ProjectStore.AddTaskThenDeleteTask` | src/App1/App1.jsx:406-427 | deleting a task just added with a fresh id restores the previous state exactly |
| `ProjectStore.AddProjectThenDeleteProject` | src/App1/App1.jsx:454-476 | deleting a project just added with a fresh id restores the previous state except that nothing is selected |
| `ProjectStore.StepKeepsValid` | src/App2/useProjects.js:10-74 | every handler keeps project ids and task ids unique, provided a new id is fresh |
| `ProjectStore.RunKeepsValid` | src/App1/App1.jsx:399-476 | ids stay unique over any sequence of handler calls in which every new id is fresh |
| `ProjectStore.StepNeverEditsRecords` | src/App1/App1.jsx:405-476 | after any handler every task and project was there before or is the one record the handler creates; a new task carries the selection of the moment |
| `ProjectStore.SelectionResetsIdempotent` | src/App1/App1.jsx:438-451 | starting and cancelling the creation of a project are idempotent |
| `ProjectStore.ProjectsHook.constructor` | src/App1/App1.jsx:399-403 | the hook's state starts as the initial state |
| `ProjectStore.ProjectsHook.HandleAddTask` | src/App1/App1.jsx:406-419 | the state becomes AddTask of the previous state |
| `ProjectStore.ProjectsHook.HandleDeleteTask` | src/App1/App1.jsx:422-427 | the state becomes DeleteTask of the previous state |
| `ProjectStore.ProjectsHook.HandleSelectProject` | src/App1/App1.jsx:430-435 | the state becomes SelectProject of the previous state |
| `ProjectStore.ProjectsHook.HandleStartAddProject` | src/App.jsx:12-17 | the state becomes StartAddProject of the previous state |
| `ProjectStore.ProjectsHook.HandleCancelAddProject` | src/App1/App1.jsx:446-451 | the state becomes CancelAddProject of the previous state |
| `ProjectStore.ProjectsHook.HandleAddProject` | src/App.jsx:19-31 | the state becomes AddProject of the previous state |
| `ProjectStore.ProjectsHook.HandleDeleteProject` | src/App1/App1.jsx:470-476 | the state becomes DeleteProject of the previous state |
| `Views.FindProject` | src/App2/MainApp.jsx:19-21 | nothing is found exactly when no project has the id; otherwise the result is the project at the first index with that id |
| `Views.SelectedProject` | src/App1/App1.jsx:479-481 | a project is found exactly when the selection is an id that some project has, and then it is the first project with that id |
| `Views.TasksFor` | src/App2/MainApp.jsx:40-42 | the shown tasks are exactly the stored tasks whose projectId equals the selection |
| `Views.MainContent` | src/App2/MainApp.jsx:23-45 | Creating shows the form, NoSelection the placeholder, a found id the detail view with the first project of that id and its filtered tasks, and a dangling id nothing; each if and only if |
| `Views.ReducedContent` | src/App.jsx:33-38 | Creating shows the form, NoSelection the placeholder, and any id nothing |
| `Views.AddTaskNewestFirst` | src/App1/App1.jsx:505-507 | after adding a task it heads the list of its selection, in front of the older ones; every other list is unchanged |
| `Views.AddProjectShowsIt` | src/App1/App1.jsx:454-481 | after adding a project with a fresh id the lookup finds that very project with the submitted fields and the panel shows its detail view |
| `Views.SelectDanglingShowsNothing` | src/App1/App1.jsx:484-510 | selecting an id no project has leaves the panel empty |
| `Views.DeleteProjectShowsPlaceholder` | src/App1/App1.jsx:470-495 | after deleting any project the placeholder shows and every task list, that of the deleted project included, is unchanged |
| `Views.StartAndCancelViews` | src/App2/MainApp.jsx:24-32 | starting a project shows the form in both dispatches and cancelling shows the placeholder |
| `Views.ReducedAddProjectShowsNothing` | src/App.jsx:19-38 | in the reduced application adding a project appends it and leaves the panel empty |
| `Forms.HandleSave` | src/App2/NewProject.jsx:21-42 | onAdd is not called exactly when some field is all whitespace; otherwise it receives the three fields untrimmed |
| `Forms.SaveRejectionIgnoresFieldOrder` | src/App1/App1.jsx:276-283 | whether a save is rejected does not depend on the order of the fields |
| `Forms.NewTask.constructor` | src/components/NewTask.jsx:11 | the input starts empty |
| `Forms.NewTask.HandleChange` | src/components/NewTask.jsx:14-16 | the input holds exactly the typed value |
| `Forms.NewTask.HandleClick` | src/components/NewTask.jsx:19-26 | all-whitespace input calls nothing and is kept; otherwise onAdd receives the untrimmed text and the input is cleared |
| `Scenarios.HomeProjectSession` | src/App2/useProjects.js:39-74 | start, save "Home", add "mow lawn", delete: the detail view shows the project, the task is listed under it, and after deletion the projects are empty, the placeholder shows and the task remains stored |
| `Scenarios.TwoTasksNewestFirst` | src/App2/useProjects.js:10-23 | two tasks added to one project are listed newest first |

## Left out

- Rendering, styling and layout (the sidebar and its highlight, the task list markup, the placeholder and detail components): presentation without behaviour beyond the dispatch modelled in `Views`.
- The modal dialogs (`<dialog>`, `createPortal`, the imperative ref handle) and the `Input` wrapper: browser APIs; the project form's "open the dialog" path is the `None` result of `Forms.HandleSave`.
- Formatting the due date with `toLocaleDateString`: locale-dependent library behaviour; the due date is an opaque string.
- `Math.random()` identifiers: replaced by identifiers passed to `AddTask`/`AddProject`; their numeric versus string form (`App.jsx` calls `toString()`) is not modelled, `Id` is an integer.
- `ProjectStore.RunKeepsValid`: holds only for runs whose new ids are fresh, because the random ids of the source are unique only with high probability.
- `Views.AddProjectShowsIt`: requires the new id to be fresh, because with a colliding random id the lookup returns the older project with that id.
- React's state scheduling and batching: every handler is modelled as applied at once, in event order.
- `src/Untitled-1.jsx` (an unfinished draft that uses `content` outside its scope and never imports `NewProject`) and `src/main.jsx` (the mounting code) are not part of this model.
