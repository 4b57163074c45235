# ToDoApp state transitions in Dafny

A model of the state logic of a browser to-do list manager whose data lives
on a remote mock REST API. Two components hold all of the logic:

- the **list manager** (`src/ToDoList.js`, module `ToDoList`): the lists, the
  one list whose tasks are expanded, the dialog for creating a list, and the
  deletion of a list together with its tasks;
- the **task panel** (`src/ToDoTask.js`, module `ToDoTask`): the tasks of one
  list, the create/edit form with its working draft, and the
  create/edit/delete/complete operations.

Every request to the remote store becomes a `Call` value (module `Api`) that
the operation returns, and every response becomes an
`Outcome<T> = Ok(data) | NotFound | Fail` that the caller of the operation
supplies: a 200 with its body, a 404, or any other failure. The component
state (`TaskPanel`, `ListManager`) is a class whose handlers update its
fields in place, as the components' state setters do; the updates of the task
collection and of the draft are pure functions (`Appended`, `RemoveById`,
`ReplaceById`, `SetField`, ...) that the handlers call and that the lemmas
are about. The deletion of a list is a method, `DeleteListPlan`, that builds
the trace of requests it issues; it is proved equal to the specification
function `DeleteListTrace`, about which the ordering and counting lemmas
are proved. `View.Render` gives the loading-then-error-then-content
precedence both components use.

Three behaviours of the code worth knowing:

- the checkbox change sends the checkbox's value as the new completion flag
  (it does not flip the stored flag), and when no task has the id it sends an
  object holding only that flag (`Payload.CompletedOnly`);
- refetching the lists (`ListManager.FetchData`) never clears an error that
  is already set, unlike fetching the tasks, which clears it first;
- all task deletes of a list deletion are issued even when some of them fail;
  the list delete is then skipped and the error set.

Files: `api.dfy` (records, outcomes, requests), `view.dfy` (render
precedence), `todo_task.dfy` (task panel), `todo_list.dfy` (list manager).

## Model

| member | source | states |
|---|---|---|
| View.Render | src/ToDoTask.js:198-205 | loading shows the spinner; otherwise an error shows the error message; only with neither is the content shown (the same precedence as src/ToDoList.js:119-126) |
| ToDoTask.Appended | src/ToDoTask.js:64 | after a successful create the collection is one longer, keeps every earlier task at its position and ends with the server's record |
| ToDoTask.RemoveById | src/ToDoTask.js:76 | after a successful delete no task with that id remains, every task with another id is still there, and nothing is added |
| ToDoTask.ReplaceById | src/ToDoTask.js:89-91 | after a successful edit the length is unchanged, each task with the edited id becomes the server's record, and every other task stays at its position |
| ToDoTask.FindById | src/ToDoTask.js:99 | the search yields the first task in collection order that has the id, and yields nothing exactly when no task has the id |
| ToDoTask.CheckboxPayload | src/ToDoTask.js:98-102 | the edit body is the found task with only its completion flag replaced by the checkbox value; with no such task it is exactly the object holding only the flag |
| ToDoTask.RemoveByIdConcat | src/ToDoTask.js:76 | deletion keeps relative order: deleting from a concatenation is the concatenation of the deletions |
| ToDoTask.RemoveByIdCount | src/ToDoTask.js:76 | deletion keeps every occurrence of each task with another id and removes every occurrence of tasks with the deleted id |
| ToDoTask.RemoveByIdIdempotent | src/ToDoTask.js:76 | deleting the same id a second time changes nothing |
| ToDoTask.RemoveByIdAbsent | src/ToDoTask.js:76 | deleting an id no task carries leaves the collection unchanged |
| ToDoTask.RemoveAfterAppend | src/ToDoTask.js:64-76 | deleting the id of a just-created task gives the same collection as deleting it before the create |
| ToDoTask.ReplaceByIdIdempotent | src/ToDoTask.js:89-91 | applying the same edit response twice gives the same collection as applying it once |
| ToDoTask.ToggleEcho | src/ToDoTask.js:98-102 | with unique ids, a checkbox edit the server echoes changes exactly the completion flag of the one task and nothing else |
| ToDoTask.SetField | src/ToDoTask.js:115-118 | the spread with one key overwritten holds the new value under that key and the old value under every other key |
| ToDoTask.InputChange | src/ToDoTask.js:105-119 | a missing event, a missing target or an empty id leaves the draft unchanged; otherwise exactly the key named by the id takes the input's value |
| ToDoTask.DateChange | src/ToDoTask.js:122-127 | the date picker sets the due date and leaves every other key of the draft unchanged |
| ToDoTask.PriorityChange | src/ToDoTask.js:130-135 | picking a priority sets it and leaves every other key of the draft unchanged |
| ToDoTask.InitialDraft | src/ToDoTask.js:20-26 | the first draft has title "New Task", empty description, no priority, the current time as due date and no other keys |
| ToDoTask.EmptyDraft | src/ToDoTask.js:145-150 | a reset draft has an empty title and description, no priority, the current time as due date and no other keys |
| ToDoTask.DraftOf | src/ToDoTask.js:157-162 | the edit draft holds the task's title, description, due date and priority and no other keys |
| ToDoTask.TaskPanel.constructor | src/ToDoTask.js:16-27 | a mounted panel is loading, has no tasks and no error, a closed form, the initial draft and no task being edited |
| ToDoTask.TaskPanel.FetchTasks | src/ToDoTask.js:31-51 | a 200 replaces the tasks, a 404 empties them without error, any other failure keeps them and sets the error; loading is false afterwards in every case |
| ToDoTask.TaskPanel.AddTask | src/ToDoTask.js:58-68 | posts the payload; success appends the server's record, failure sets the error and keeps the tasks; nothing else changes |
| ToDoTask.TaskPanel.DeleteTask | src/ToDoTask.js:71-80 | deletes the task; success removes that id, failure sets the error and keeps the tasks; nothing else changes |
| ToDoTask.TaskPanel.EditTask | src/ToDoTask.js:83-95 | puts the payload; success replaces the tasks with that id by the server's record, failure sets the error and keeps the tasks; nothing else changes |
| ToDoTask.TaskPanel.CheckboxChange | src/ToDoTask.js:98-102 | issues exactly one edit of that task whose body is the checkbox payload, then applies its response as an edit |
| ToDoTask.TaskPanel.HandleInputChange | src/ToDoTask.js:105-119 | the draft becomes the input-changed draft; nothing else changes |
| ToDoTask.TaskPanel.HandleDateChange | src/ToDoTask.js:122-127 | the draft's due date changes; nothing else changes |
| ToDoTask.TaskPanel.HandlePriorityChange | src/ToDoTask.js:130-135 | the draft's priority changes; nothing else changes |
| ToDoTask.TaskPanel.HandleSave | src/ToDoTask.js:138-152 | with a task being edited it puts the draft to that task, otherwise it posts the draft; afterwards the form is closed, the draft reset and no task is being edited |
| ToDoTask.TaskPanel.OpenModalEdit | src/ToDoTask.js:155-164 | the task's id is being edited, the draft is seeded from it, the form is open |
| ToDoTask.TaskPanel.OpenModalNew | src/ToDoTask.js:167-176 | no task is being edited, the draft is reset, the form is open |
| ToDoTask.TaskPanel.CloseModal | src/ToDoTask.js:179-188 | the form is closed, the draft reset and no task is being edited |
| ToDoList.NextSelection | src/ToDoList.js:48-54 | clicking the expanded list collapses it; clicking any other list makes it the one expanded |
| ToDoList.AtMostOneExpanded | src/ToDoList.js:175-201 | with unique list ids, at most one list entry (by position) shows its task panel under any selection |
| ToDoList.ClickExpandsOnlyClicked | src/ToDoList.js:48-54 | after a click only the clicked list can be expanded, and none is if it was expanded before |
| ToDoList.ClickTwiceRestores | src/ToDoList.js:48-54 | two clicks on the same list restore a selection that was empty or that list |
| ToDoList.ClickTwiceFromOther | src/ToDoList.js:48-54 | two clicks on a list while another is expanded leave nothing expanded |
| ToDoList.TasksToDelete | src/ToDoList.js:73-85 | the tasks to delete are the fetched ones, or none after a 404 |
| ToDoList.TaskDeletes | src/ToDoList.js:88-96 | one delete request per fetched task, carrying that task's id, in fetch order |
| ToDoList.DeleteListPlan | src/ToDoList.js:71-106 | the requests issued are exactly the deletion trace, and the error is set exactly when a step failed |
| ToDoList.DeleteListCounts | src/ToDoList.js:73-100 | a deletion issues one task delete per fetched task (none if the fetch aborted) and one list delete exactly when every task delete succeeded |
| ToDoList.DeleteListOrder | src/ToDoList.js:88-100 | every task delete is issued before the list delete |
| ToDoList.DeleteEmptyList | src/ToDoList.js:73-100 | with no tasks or a 404, the list is deleted with zero task deletes and one list delete, failing only if that delete fails |
| ToDoList.DeleteAbortsOnFetchFailure | src/ToDoList.js:79-84 | a task fetch failing with other than a 404 issues no delete at all and sets the error |
| ToDoList.DeleteAbortsOnTaskFailure | src/ToDoList.js:89-105 | one failed task delete keeps the list delete from being issued and sets the error |
| ToDoList.ListManager.constructor | src/ToDoList.js:20-24 | a mounted manager is loading, has no lists, no error, nothing expanded and the dialog closed |
| ToDoList.ListManager.FetchData | src/ToDoList.js:32-45 | success replaces the lists, failure keeps them and sets the error; an earlier error stays; loading is false afterwards |
| ToDoList.ListManager.HandleListClick | src/ToDoList.js:48-54 | the selection becomes the next selection; nothing else changes |
| ToDoList.ListManager.AddList | src/ToDoList.js:57-68 | success issues the post and a refetch and closes the dialog; failure sets the error and leaves the dialog and the lists as they were |
| ToDoList.ListManager.DeleteListWithTasks | src/ToDoList.js:71-106 | issues the deletion trace; a failed step sets the error and keeps the lists, success refetches them |
| ToDoList.ListManager.OpenModalNewList | src/ToDoList.js:109-111 | the dialog opens; nothing else changes |
| ToDoList.ListManager.CloseModalNewList | src/ToDoList.js:114-116 | the dialog closes; nothing else changes |

## Left out

- HTTP: the axios requests, the mock API's URLs and its status codes beyond 200, 404 and any other failure are not modelled; requests are `Call` values and responses are `Outcome` parameters. A successful task fetch with a status other than 200 is not modelled.
- Concurrency: the task deletes of a list deletion run concurrently and the refetches after creating or deleting a list are not awaited. The model issues them in sequence and handles each response in turn, and says nothing about interleavings or races between rapid clicks.
- The error object: `error` is a flag saying an error is held. Which of several concurrent failures a deletion reports, and the error's message, are not modelled. The code reports no per-task count of failed deletes, and neither does the model.
- Dates: `new Date()` becomes a `now` parameter, the due date is an opaque string, and the locale-dependent `formatDate` is not part of this model.
- The task being edited is an `Option`: the code tests the id for truthiness, so a task whose id is the empty string would be saved as a new task there; the model edits it.
- Task records carry only the six fields of `Api.Task`; further fields the server may return are not modelled.
- The mount effects that start the fetches (and refetch when the list id changes) are left to the caller, who invokes `FetchTasks` and `FetchData`.
- Rendering: JSX, CSS, icons, the Bootstrap modal and dropdown and the date-time picker widgets, `src/App.js`, and console logging are not modelled; the new list's title, read from the page element, is a parameter of `AddList`.
- AtMostOneExpanded: assumes the list ids are unique, as the server assigns them; with two entries sharing the selected id the code mounts a task panel for each.
- Task-delete responses are a function of the task id, so two fetched tasks sharing an id get the same response; with server-assigned unique ids this is one response per request.
