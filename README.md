# Commagra workshop planner — verified model of the job list

The planner is a small single-page application for a marble workshop. Staff
register jobs (client, material, delivery date, one or two assigned workers,
attached PDF/DXF drawings), move each job through four statuses (Pendiente,
En Corte, Acabado, Urgente), see per-status counters, push each job to a
spreadsheet webhook and pull the whole list back from it, and send WhatsApp
status reports.

This project models the part with behaviour worth proving: the job-list
state of the root component and the pure expressions that transform it,
the guard and payload of the push, the outcome of the pull, the entry form's
worker selection and submission rules, and the dashboard counters.

Modules:

- `Types` — the records of `types.ts`: `TaskStatus` (four values), `Task`,
  `TaskInput` (a job without id and creation time), `Settings`.
- `Seqs` — `Array.prototype.map` and `filter` over sequences, with their
  characterising contracts (`Filter` keeps exactly the elements that pass,
  as often as they occur, and in order: `FilterAppend`).
- `Text` — JavaScript string operations used by the code: `a || b`,
  `includes`, `join`, `replace(/\D/g, '')`, `toUpperCase`.
- `TaskRepo` — the list transformations passed to `setTasks` in `App.tsx`
  (prepend, update-status, delete, push acknowledgement, pull) and the
  status view, with lemmas relating them.
- `DashboardStats` — `getCount` and the four tiles.
- `Sync` — push guard, payload with fallbacks, list after a push or pull,
  and the WhatsApp report link.
- `Planner` — class `App`: the component's `tasks` and `settings` as fields,
  one method per handler, each stated against the `TaskRepo`/`Sync` function
  it applies.
- `TaskForm` — the worker toggle, field setters, submission validation and
  record building, and class `Form` holding the form's state.

Clock, randomness, prompts and network outcomes are parameters: the new
job's `id` and `createdAt`, the `Date.now()` digits and the ISO date of a
push payload, `confirmed` for the deletion prompt, `transportOk` for whether
the push's `fetch` threw, and the parsed pull response.

Behaviour of the code that the model keeps as it is:

- deleting a job removes it from the list physically; there is no archive status;
- `TaskStatus` has exactly four values;
- a pull does not map remote records field by field with defaults: each
  array element is spread into the list as it is, with `syncedToSheet: true` added;
- the push payload carries no file contents, only the ten fields of
  `App.tsx:95-106`.

## Model

| member | source | states |
|---|---|---|
| Seqs.Filter | App.tsx:221 | every kept job passes the test, and each job that passes is kept exactly as often as it occurs |
| Seqs.FilterAppend | App.tsx:160 | filtering distributes over concatenation, so kept jobs stay in their relative order |
| Seqs.Map | App.tsx:141 | one result per job, each the transformation of the job in the same position |
| Types.StatusLabel | types.ts:2-7 | each status's string is one of 'Pendiente', 'En Corte', 'Acabado', 'Urgente' and is never empty |
| Text.Or | App.tsx:97-105 | the JavaScript or-operator on strings yields one of its operands: the first when it is non-empty, and empty only when both are |
| Text.Contains | App.tsx:93 | `includes` never finds a longer string, always finds a prefix, and always finds the empty string |
| Sync.ChosenUrl | App.tsx:92 | an add or update push uses the saved URL; a test uses the URL it is given, else the saved one |
| Sync.Loose | App.tsx:136-144 | a stored job as the push sees it: its own fields, the status as its enum string, no URL and no Spanish aliases |
| Sync.Probe | App.tsx:235 | the connection-test object has the given URL and no other property |
| Sync.Message | App.tsx:49-55 | the report starts with the COMMAGRA heading and ends with the sign-off line |
| Types.StatusLabelInjective | types.ts:2-7 | the four status strings are non-empty and pairwise distinct |
| TaskRepo.NewTask | App.tsx:127-133 | the new job has the given id and creation time, is not synced, and carries every field of the form's input unchanged |
| TaskRepo.Prepend | App.tsx:134 | the new job is at index 0, the previous list follows unchanged, the length grows by one |
| Planner.App.AddTask | App.tsx:127-137 | the returned job is new, unsynced, built from the input; the list becomes that job followed by the old list; settings unchanged |
| TaskRepo.UpdateStatus | App.tsx:139-155 | same length; every job with the id gets the new status and is unsynced with all other fields kept; every other job is unchanged |
| TaskRepo.UpdateUnknownId | App.tsx:139-155 | an id not in the list leaves the list equal to before |
| TaskRepo.UpdateTwice | App.tsx:139-155 | two updates of the same id equal the later one alone |
| TaskRepo.UpdateAppend | App.tsx:141-153 | the update works job by job: it distributes over concatenation |
| Planner.App.UpdateTaskStatus | App.tsx:139-156 | the list becomes the status update of the old list; an unknown id changes nothing |
| TaskRepo.Delete | App.tsx:160 | no remaining job has the id; every other job is kept exactly as many times as before |
| TaskRepo.DeleteAppend | App.tsx:160 | deletion keeps the relative order of the remaining jobs |
| TaskRepo.DeleteUnknownId | App.tsx:160 | deleting an absent id returns the list unchanged |
| TaskRepo.DeleteAfterUpdate | App.tsx:139-160 | a status update does not change which jobs a later delete of that id removes |
| TaskRepo.AddThenDelete | App.tsx:127-162 | adding a job with a fresh id and deleting that id restores the previous list |
| Planner.App.DeleteTask | App.tsx:158-162 | once confirmed the list becomes the deletion of the id; unconfirmed it is unchanged |
| TaskRepo.MarkSynced | App.tsx:117-119 | same length; jobs with the pushed id become synced with all other fields kept; other jobs unchanged |
| TaskRepo.AckUnknownId | App.tsx:118 | acknowledging an id not in the list changes nothing |
| TaskRepo.AddThenAck | App.tsx:117-136 | after adding a fresh job and acknowledging its push, the job is first and synced and the older jobs are unchanged |
| TaskRepo.UpdateThenAck | App.tsx:117-155 | an update followed by the acknowledgement leaves each matching job in the new status and synced, the rest unchanged |
| TaskRepo.MarkAllSynced | App.tsx:76-78 | same length as the pulled array; each job is the pulled element with `syncedToSheet` true |
| TaskRepo.View | App.tsx:221 | 'TODAS' gives the whole list; a status gives only jobs in that status, each as often as in the list |
| TaskRepo.ViewsPartition | App.tsx:221 | the four status views together hold each job exactly as often as the full list |
| TaskRepo.FilterChoicesCover | App.tsx:174 | the filter buttons start with 'TODAS' and include every status |
| DashboardStats.GetCount | components/DashboardStats.tsx:10 | the count is at most the list length, 0 on an empty list, and equals the length of that status's view |
| DashboardStats.GetCountPrepend | components/DashboardStats.tsx:10 | adding a job raises the count of its status by one and leaves the others unchanged |
| DashboardStats.GetCountAppend | components/DashboardStats.tsx:10 | the count of a concatenation is the sum of the counts |
| DashboardStats.GetCountFull | components/DashboardStats.tsx:10 | the count equals the length exactly when every job has that status |
| DashboardStats.GetCountZero | components/DashboardStats.tsx:10 | the count is zero exactly when no job has that status |
| DashboardStats.CountsSum | components/DashboardStats.tsx:12-17 | the four counts sum to the number of jobs |
| DashboardStats.Stats | components/DashboardStats.tsx:12-17 | four tiles in the order Urgentes, Pendientes, En Corte, Acabados whose counts sum to the number of jobs |
| DashboardStats.StatsCount | components/DashboardStats.tsx:12-17 | each tile shows the size of its status's view |
| DashboardStats.GetCountAfterUpdate | components/DashboardStats.tsx:10 | updating a job whose id is unique moves one from its old status's count to the new status's count |
| DashboardStats.DeleteNeverRaises | components/DashboardStats.tsx:10 | a deletion never raises any count |
| Sync.PushTarget | App.tsx:89-93 | refuses with sync disabled unless testing; a target is non-empty and contains '/exec'; non-test pushes use the saved URL, tests the given URL else the saved one; any enabled push whose URL contains '/exec' goes through |
| Sync.BuildPayload | App.tsx:95-106 | the action name; id is the job's id, else 'TEST-' and the clock; montador, else 'SISTEMA'; cliente is clientName, else cliente, else 'PRUEBA'; material, else '-'; estado is status, else estado, else 'PENDIENTE'; descripcion is description, else descripcion, else 'Prueba'; fecha, else today; pedido and color pass through ('' when missing); none of the first six is ever empty |
| Sync.PushRequest | App.tsx:89-106 | a request exists exactly when the guard passes, to the guard's URL, with the built payload |
| Sync.AfterPush | App.tsx:108-124 | the list changes only for a sent, non-test push whose fetch did not throw, and then by acknowledging the pushed id |
| Sync.RefusedPushes | App.tsx:90-93 | sync disabled for a non-test push, or no URL at all: nothing is sent |
| Sync.RefusedWithoutMarker | App.tsx:93 | a chosen URL without '/exec' is refused |
| Sync.TestUsesGivenUrl | App.tsx:92-93 | a connection test with a URL containing '/exec' targets that URL even with sync disabled |
| Sync.ProbePayload | App.tsx:95-106 | the connection test sends the fixed test record ('TEST-' id, 'SISTEMA', 'PRUEBA', '-', 'PENDIENTE', 'Prueba', today, '', '') |
| Sync.JobPayload | App.tsx:95-106 | a stored job pushes its own id, client name, status string, order number and colour |
| Sync.TestLeavesTasks | App.tsx:117-120 | a test push never changes the job list |
| Sync.PullUrl | App.tsx:64-73 | no request without a webhook URL; otherwise the request is the webhook URL followed by the `?action=read` query |
| Sync.AfterPull | App.tsx:63-87 | empty URL, non-array or failed response: list unchanged; array response: the list becomes the array, same length, every job synced |
| Sync.PullDiscardsLocal | App.tsx:76-78 | a successful pull result does not depend on the local list |
| Sync.PullKeepsStatuses | App.tsx:76-78 | marking pulled jobs synced commutes with every status view |
| Sync.MarkAllSyncedAppend | App.tsx:78 | marking synced distributes over concatenation |
| Sync.WhatsAppLink | App.tsx:46-59 | no link with notifications off; otherwise the wa.me link for the digits of the number with the report text |
| Sync.MessageMentions | App.tsx:49-55 | the report contains the upper-cased status line, the client line and the order line |
| Sync.PedidoLineSpelled | App.tsx:54 | the order line shows the order number, or 'S/N' when it is empty |
| Sync.LinkPhone | App.tsx:57 | the link's phone part holds digits only, and a number typed as digits is used verbatim |
| Text.ContainsIffOccurs | App.tsx:93 | the `includes` scan succeeds exactly when the marker occurs at some position |
| Text.DigitsOnly | App.tsx:57 | the result has only digits, each digit as often as in the input, and is no longer than it |
| Text.DigitsOnlyAppend | App.tsx:57 | stripping keeps the digits in their original order |
| Text.DigitsOnlyFixes | App.tsx:57 | a string of digits is left unchanged |
| Text.ToUpper | App.tsx:50 | same length, each letter upper-cased position by position |
| Text.Join | components/TaskForm.tsx:72 | no names join to the empty string; one name joins to itself; a join starts with the first name and ends with the last |
| Text.JoinSnoc | components/TaskForm.tsx:72 | joining one more name appends the separator and that name at the end |
| Planner.App.constructor | App.tsx:15-27 | the application starts with no jobs and the default settings |
| Planner.App.UpdateSettings | App.tsx:41-44 | settings are replaced wholesale, jobs untouched |
| Planner.App.SyncToGoogleSheet | App.tsx:89-125 | the request sent is the guarded payload; success means sent and no transport failure; the list is acknowledged only on a successful non-test push |
| Planner.App.PullFromCloud | App.tsx:63-87 | requests the read URL when one is configured and sets the list to the pull outcome |
| Planner.App.VisibleTasks | App.tsx:221 | 'TODAS' shows the whole list; a status shows exactly the jobs in that status, each as often as in the list |
| Planner.AddUpdateAck | App.tsx:127-155 | add, status change and acknowledged update push: the new job is first, in the new status and synced, the old list follows |
| TaskForm.Toggle | components/TaskForm.tsx:30-40 | a selected worker is removed while every other name keeps its number of occurrences; an unselected one is appended when fewer than two are selected, otherwise the selection is unchanged |
| TaskForm.ToggleRemoves | components/TaskForm.tsx:31-32 | deselecting removes the worker from its position and keeps the others in order |
| TaskForm.ToggleValid | components/TaskForm.tsx:30-40 | a toggle keeps at most two workers and no duplicates |
| TaskForm.ClicksValid | components/TaskForm.tsx:13-40 | from a valid (e.g. empty) selection, any run of clicks keeps at most two workers and no duplicates |
| TaskForm.ClicksFromAvailable | components/TaskForm.tsx:11-40 | clicks on offered workers only ever select offered workers |
| TaskForm.InitialForm | components/TaskForm.tsx:14-24 | the form opens with today's date, empty client, delivery date and time, status Pendiente |
| TaskForm.WithField | components/TaskForm.tsx:128-184 | the edited field takes the typed value, every other editable field keeps its value, and the date, the time and the status never change |
| TaskForm.Submission | components/TaskForm.tsx:58-78 | refused exactly when no worker is selected or client or delivery date is empty (no worker reported first); otherwise the record copies the fields, joins workers with ' / ' and defaults missing file names and data to '' |
| TaskForm.SubmittedMontador | components/TaskForm.tsx:70-72 | one worker is stored as its name, two as 'first / second' in selection order |
| TaskForm.Form.constructor | components/TaskForm.tsx:13-28 | the form opens with no workers, initial fields, no files, not submitting |
| TaskForm.Form.ToggleMontador | components/TaskForm.tsx:30-40 | the selection becomes the toggle; the alert is shown exactly when a third worker is refused; the form stays valid |
| TaskForm.Form.SetField | components/TaskForm.tsx:128-184 | the edited field takes the typed value, the other fields keep theirs, status stays Pendiente, nothing else in the form changes |
| TaskForm.Form.AttachFile | components/TaskForm.tsx:42-56 | the read file becomes the PDF or DXF attachment |
| TaskForm.Form.HandleSubmit | components/TaskForm.tsx:58-78 | returns the submission of the current state; an accepted record has status Pendiente; only acceptance sets the submitting flag |

## Left out

- Persistence in `localStorage` (App.tsx:29-44): loading and saving the job list and settings as JSON are not modelled.
- Network and timing: `fetch` in `no-cors` mode, JSON parsing of the pull response, the 500 ms `setTimeout` before the add push, and the order in which overlapping pushes complete. Each completed call is modelled by the state change it makes; the fetch outcome and the parsed body are parameters.
- The id from `Math.random`, `Date.now()` and `new Date().toISOString()` are parameters, not computed.
- Planner.App.UpdateTaskStatus: the push and the WhatsApp confirmation the code fires from inside the state updater, once per matching job, are not part of the method; they are the separate `SyncToGoogleSheet` call and `Sync.WhatsAppLink`.
- Pulled array elements are taken to be job records; objects of any other shape that the code would spread into the list are not represented.
- Optional job fields (`fileData`, `dxfFileName`, `dxfFileData`, `syncedToSheet`) are plain strings and booleans; "" and false stand for an absent value, which is all the code distinguishes.
- Text.ToUpper: upper-cases ASCII letters only; all status strings are ASCII, so the report text is exact.
- `alert`, `confirm`, `window.open`, the clipboard, the QR image URL and `FileReader` (TaskForm.tsx:42-56 beyond storing the read file): prompts are parameters or results, the rest is not modelled.
- UI-only state: `isSyncing`, `isFormOpen`, `viewMode`, the selected filter (a parameter of `View`), the modal open flags.
- Rendering and styling: components/TaskList.tsx, components/Header.tsx, components/SettingsModal.tsx and the colours and icons of the dashboard tiles; components/GeminiAssistant.tsx is not part of this model.
