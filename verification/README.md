# Task dashboard reconciliation model

A Dafny model of the client side of a small personal task tracker. A signed-in
user sees a dashboard with a task form and a task list. The dashboard keeps
three pieces of state: the task list, a loading flag and an editing slot (the
task the form is editing, or none). Each user action calls the remote task
store once. When the call succeeds, the dashboard patches its list locally:

- create prepends the new task;
- update merges the form draft into the tasks with the edited id;
- delete filters out the tasks with an id;
- toggle sets `completed` on the tasks with an id;
- load replaces the list wholesale.

When the call fails, the list stays as it was and one alert is raised. A
failed load raises no alert.

The model has seven modules:

- `TaskTypes`: the task record, the form draft and the three priorities.
- `Gateway`: the store as seen from the dashboard. A `Reply` is how a call
  settled. A `Call` is the operation a handler issued, with its arguments.
  `CreatedTask` is the task record the store's create returns.
- `TaskPatches`: the pure list patches (`map` with object spread, `filter`)
  and the lemmas about them.
- `DashboardPage`: class `Dashboard` with fields `tasks`, `loading` and
  `editingTask`, one method per handler, and `FormPropsFor`. `FormPropsFor`
  gives what the dashboard passes to the form for a given editing slot.
- `TaskFormView`: class `TaskForm`, the form's draft state machine, and the
  per-field merge `ApplyChange`.
- `TaskListView`: the list as a pure view model. It covers the priority badge
  mapping, the row decisions and the callback each row control fires.
- `DashboardScreen`: class `Screen`, which wires the form and the list to the
  dashboard's handlers the way the page does.

The remote store, the clock and the signed-in session are not modelled.
Every handler takes the store's reply (`Resolved(value)` or `Rejected`) as a
parameter. It returns `Effects`: the call it issued (or `NoCall`) and whether
it raised an alert. The signed-in user is a parameter `Option<string>` that
holds the email. The `confirm` prompt is a boolean parameter.

Three behaviours of the code are worth knowing:

- The form's seed (`initialData`) is a new object on every dashboard render.
  So the form's sync effect runs after every dashboard render while a task is
  being edited. `Screen.Render` models that step. As a result, a successful
  toggle or delete while editing puts the edited task's stored fields back
  into the form, and unsaved edits are lost.
- After a cancel or a successful update there is no seed, so the form keeps
  the values that were being edited, now in create mode.
- In create mode the draft is cleared as soon as the create handler is
  called. The handler is not awaited, so this happens whatever the store
  answers.

Behaviours of the code a reader might not expect:

- The draft is cleared after every create-mode submit, successful or not.
- The delete confirmation is asked by the dashboard's delete handler
  (`src/app/page.tsx:71`), not by the list. The list passes the id straight
  through.
- A failed load keeps the previous list; it does not empty it.
- Toggle and delete do not check for a signed-in user. Create and update do.

## Model

| member | source | states |
|---|---|---|
| `TaskTypes.ParsePriority` | src/types/task.ts:6 | a string reads back as a priority exactly when it is one of the three literals, and then as the priority with that literal |
| `TaskTypes.ParsePriorityName` | src/types/task.ts:6 | every priority reads back from its own literal |
| `Gateway.CreatedTask` | src/services/taskService.ts:29-34 | a created task has the store's id, the user's email as owner, `completed` false, and exactly the draft's title, description and priority |
| `TaskPatches.MergeDraft` | src/app/page.tsx:60 | the merged task keeps its id, `completed` and owner, and its editable fields are exactly the draft |
| `TaskPatches.MergeOwnDraft` | src/app/page.tsx:60 | merging a task's own fields back into it leaves it unchanged |
| `TaskPatches.UpdateById` | src/app/page.tsx:58-62 | same length; each task with the edited id gets the draft merged in, every other task is untouched |
| `TaskPatches.UpdateWithOwnDraft` | src/app/page.tsx:58-62 | an update whose draft still equals the stored fields of the edited id leaves the list unchanged |
| `TaskPatches.SetCompletedById` | src/app/page.tsx:85-89 | same length; each task with the id has only `completed` changed, every other task is untouched |
| `TaskPatches.ToggleTwiceRestores` | src/app/page.tsx:85-89 | toggling the tasks with an id away from their flag and back restores the list |
| `TaskPatches.RemoveById` | src/app/page.tsx:75 | the result is shorter than the list by exactly the number of tasks with that id |
| `TaskPatches.RemoveByIdMembers` | src/app/page.tsx:75 | the remaining tasks are exactly the tasks of the list whose id differs |
| `TaskPatches.RemoveByIdAppend` | src/app/page.tsx:75 | deleting distributes over concatenation, so the remaining tasks keep their relative order |
| `TaskPatches.RemoveAbsentId` | src/app/page.tsx:75 | deleting an id no task has leaves the list unchanged |
| `TaskPatches.RemoveSingleOccurrence` | src/app/page.tsx:75 | deleting an id that only one task has removes just that task and keeps the tasks before and after it in order |
| `TaskPatches.RemoveUniqueId` | src/app/page.tsx:75 | with unique ids, deleting the id at position k removes exactly that entry and keeps the rest in order |
| `TaskPatches.RemoveKeepsUniqueIds` | src/app/page.tsx:75 | deleting keeps ids unique, and no remaining task has the deleted id |
| `TaskPatches.PatchesKeepIds` | src/app/page.tsx:58-89 | update and toggle keep the sequence of ids, hence keep ids unique |
| `TaskPatches.PatchesKeepOwner` | src/app/page.tsx:58-89 | update, delete and toggle keep every task owned by the same user |
| `TaskPatches.CreateKeepsOwner` | src/app/page.tsx:45-46 | prepending the task created for the signed-in user keeps every task owned by that user |
| `DashboardPage.Dashboard.constructor` | src/app/page.tsx:17-19 | the dashboard starts with no tasks, loading, and no task being edited |
| `DashboardPage.Dashboard.LoadTasks` | src/app/page.tsx:27-39 | without a user nothing happens; otherwise one list call for the email, success replaces the list, failure keeps it with no alert, loading ends false, editing slot untouched |
| `DashboardPage.Dashboard.CreateTask` | src/app/page.tsx:41-51 | without a user no call and no change; otherwise one create call with the draft and email, success prepends the created task to the unchanged old list, failure keeps the list and alerts once |
| `DashboardPage.Dashboard.UpdateTask` | src/app/page.tsx:53-68 | without a user or an edited task no call and no change; otherwise one update call with the edited id and draft, success patches the list by id and clears the slot, failure keeps list and slot and alerts once |
| `DashboardPage.Dashboard.DeleteTask` | src/app/page.tsx:70-80 | unconfirmed: no call, no change; confirmed: one delete call, success filters the id out, failure keeps the list and alerts once |
| `DashboardPage.Dashboard.ToggleComplete` | src/app/page.tsx:82-94 | one toggle call; success sets `completed` on the tasks with the id, failure keeps the list and alerts once; slot and loading untouched |
| `DashboardPage.Dashboard.EditTask` | src/app/page.tsx:96-98 | the editing slot holds the given task, replacing any previous one; the list is untouched |
| `DashboardPage.Dashboard.CancelEdit` | src/app/page.tsx:100-102 | the editing slot is emptied; the list is untouched |
| `DashboardPage.FormPropsFor` | src/app/page.tsx:137-146 | the form is in edit mode, submits to update, has a cancel handler and gets a seed exactly when a task is being edited; the seed is that task's fields |
| `TaskFormView.EmptyDraft` | src/components/TaskForm.tsx:14-18 | the initial draft has empty title and description and Medium priority |
| `TaskFormView.ApplyChange` | src/components/TaskForm.tsx:34-40 | the named input shows the new value and the other two inputs keep theirs |
| `TaskFormView.FieldValuesDetermineDraft` | src/components/TaskForm.tsx:34-40 | two drafts whose three inputs show the same text are the same draft |
| `TaskFormView.ChangeToSameValue` | src/components/TaskForm.tsx:34-40 | a change event carrying a field's current text leaves the draft unchanged |
| `TaskFormView.TaskForm.constructor` | src/components/TaskForm.tsx:14-18 | a new form shows the empty draft |
| `TaskFormView.TaskForm.SyncInitialData` | src/components/TaskForm.tsx:20-24 | a supplied seed replaces the draft wholesale; no seed leaves it as it is |
| `TaskFormView.TaskForm.Submit` | src/components/TaskForm.tsx:26-32 | an empty title (the required title input, line 56) blocks submission with no change; otherwise the handler gets the current draft once, and the draft is reset in create mode and kept in edit mode |
| `TaskFormView.TaskForm.Change` | src/components/TaskForm.tsx:34-40 | the draft becomes the per-field merge of the change into the old draft |
| `TaskListView.PriorityColor` | src/components/TaskList.tsx:14-25 | High gives the red classes, Medium yellow, Low green, and exactly the other strings give gray |
| `TaskListView.BadgeTellsPrioritiesApart` | src/components/TaskList.tsx:14-25 | no priority gets the gray badge, and two priorities share a badge only if they are equal |
| `TaskListView.RowDecisions` | src/components/TaskList.tsx:43-58 | a row is checked and struck through exactly when its task is completed, shows the description exactly when it is non-empty, and never has the gray badge |
| `TaskListView.RenderRows` | src/components/TaskList.tsx:37 | one row per task, row i being the row of task i |
| `TaskListView.RenderList` | src/components/TaskList.tsx:27-37 | the placeholder shows exactly for the empty list; otherwise the rows are exactly the rows of the tasks, one per task, keyed by the task ids in the given order |
| `TaskListView.RowCallback` | src/components/TaskList.tsx:44-71 | the checkbox fires toggle with the row's id and the new checked value, Edit fires edit with the whole task, Delete fires delete with the id only |
| `DashboardScreen.Screen.constructor` | src/app/page.tsx:17-19 | the screen starts with an empty list, loading, create mode and the empty draft |
| `DashboardScreen.Screen.Render` | src/app/page.tsx:139-143 | a dashboard render reseeds the draft with the edited task's fields while editing, and leaves it alone otherwise |
| `DashboardScreen.Screen.UserChanged` | src/app/page.tsx:21-25 | a signed-in user triggers one list load whose outcome the list reflects, then a render; with no user nothing runs and list, loading flag and draft are unchanged |
| `DashboardScreen.Screen.Type` | src/components/TaskForm.tsx:34-40 | typing changes only the named field of the draft |
| `DashboardScreen.Screen.SubmitForm` | src/app/page.tsx:137-138 | an empty title stops everything; create mode sends the draft to create and clears it whatever the answer; edit mode sends it to update and keeps it, so after a successful update the create-mode form still shows the edited values; a successful call raises no alert, a failed one exactly one; with no user nothing is called and list and slot are unchanged |
| `DashboardScreen.Screen.CancelClicked` | src/components/TaskForm.tsx:104-111 | only while editing; clears the slot without submitting, list, loading flag and draft unchanged |
| `DashboardScreen.Screen.RowEventFired` | src/app/page.tsx:154-159 | Edit seeds the form with the task's fields unless that task is already the one being edited, in which case the draft is kept; checkbox and Delete reach toggle and delete with the row's id; an alert is raised exactly when a call was made and failed; a successful change while editing reseeds the draft, and with no task being edited the draft is kept |
| `DashboardScreen.CheckboxRoundTrip` | src/components/TaskList.tsx:43-44 | with unique ids, ticking row k and the toggle succeeding changes only row k of the re-rendered list, which shows the new checked value |

## Left out

- The remote store is not modelled: document creation, queries, partial updates, deletion and server timestamps. Each handler receives the store's reply as a parameter. The list a load returns is taken as given, including its newest-first order and its filtering by owner.
- Sign-in, sign-out, the login redirect, the route guard and the logout handler (`src/app/page.tsx:104-111`) are external collaborators. A user is modelled only as present (with an email) or absent. The page rendering nothing without a user is not modelled.
- Console logging, the alert text and the confirm prompt are I/O. The alert is a flag in `Effects` and the prompt's answer is a boolean parameter.
- Asynchrony is not modelled. Each handler is one atomic step that sees the current list. Handlers that race, and stale closures over an older list, are out of scope. Load sets `loading` to true during the wait; the model collapses that step, so only the final `false` is visible.
- React's re-render scheduling is approximated. `Screen` renders after each successful dashboard state change and after a load. A failed call sets no state and causes no render. Setting the editing slot to the task it already holds is no state change and causes no render.
- DashboardScreen.Screen.RowEventFired: object identity is not modelled. React compares the new editing slot with the old one by object identity; the model compares task values. Clicking Edit on a task whose value equals the edited one but that is a different object (for example after a reload returned fresh records) re-renders and reseeds the draft in the source, while the model keeps the draft.
- Markup, CSS classes other than the priority badge, the loading spinner and DOM events are presentation only.
- `TaskFormView.ApplyChange` requires the priority value to be one of the three literals. The priority select offers only those. The untyped case, a stray string stored as a priority, is not modelled.
- Id uniqueness is not guaranteed by the dashboard, since the store assigns ids. Lemmas that need unique ids take it as a precondition.
