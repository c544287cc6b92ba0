# SimpliQuote core in Dafny

SimpliQuote is a React tool that prices a project: an hourly rate times the hours of its tasks and
subtasks, plus flat "other costs". It numbers each quote from a counter kept in the browser's
`localStorage`, and it keeps projects and the user's details there as well. This project models the
plain-data core underneath the screens and proves properties of it:

- **Cost aggregator** (`calculate_cost.dfy`). The `reduce` folds of `calculateCost.js` become
  recursive functions over `real`. Every numeric field is read as `parseFloat(x) || 0`
  (`js_numbers.dfy`: a field is missing, typed text that carries its `parseFloat` result, or a
  number).
- **Quote-number counter** (`quote_number.dfy`). `WebStorage` holds the local and session maps, and
  `QuoteNumberHook` holds the hook's state and runs its effect. `parseInt`, `toString` and
  `padStart` are written out so that the counter's round trip through storage is proved.
- **Storage envelope** (`storage.dfy`). `Store` is the prefixed key/value façade over a map of
  entries `{version, timestamp, data}`.
- **Project repository** (`projects.dfy`). `ProjectStore` holds the `projects` list and the storage
  map it mirrors.
- **User details and welcome flag** (`user_details.dfy`).
- **Form state machines** (`use_form.dfy`). `ProjectForm` and `TaskForm` hold the state variables
  of `useProjectForm` and `useTaskForm`, with one method per handler.
- **List editors and dialogs.** `task_management.dfy` covers `useTaskManagement`.
  `create_costs.dfy` covers the costs editor. `create_task.dfy` covers subtask validation and the
  submitted task. `create_project.dfy` covers task replace-or-append, the delete dialog and the
  quote-number extraction on submit.
- **Shared modules.** `wrappers.dfy` holds Option and Result. `seqs.dfy` holds the array operations
  the handlers use: filter, remove-at, replace-at, map and find. `text.dfy` holds `trim` and
  `split(c)[1]`. `records.dfy` holds the record types.

Each React handler is one atomic step: a method that updates the class fields that stand for the
hook's state variables. A `setState` updater runs at once on the current value. The clock
(`Date.now()`, `new Date().toISOString()`) and the answer to a `window.confirm` prompt are
parameters. A callback (`onCancel`, `onTasksChange`) is recorded in a log of invocations.

Where the code and the design intent differ, the model follows the code:

- The quote-number effect never reuses a session number. Every run removes
  `currentQuoteNumber`, and nothing writes it.
- Updating a project merges the payload's `id` over the stored one, so an id can change
  (`Projects.UpdateCanChangeId`).
- Replacing a task in the project form goes through `handleInputChange` with the name `tasks`, and
  that path does not recompute `totalCost`, so the total goes stale
  (`UseForm.TasksEditLeavesTotalStale`).
- With tasks switched off, a rate or estimate edit sets `totalCost` to rate × hours, which drops
  project-level `otherCosts` from the total (`UseForm.CostsDroppedByRateEditWithoutTasks`).
- Subtask-level `otherCosts` are never counted (`CalculateCost.SubtaskCostsNeverCounted`).
- Submitting a project records the quote number with the label's colon, ": 007" rather than
  "007" (`CreateProject.SubmitRecordsDisplayedNumber`). The intended reading is modelled beside
  it (`CreateProject.IntendedSubmittedProject`).
- Nothing rolls back or falls back when a storage write fails. The quote counter reads storage
  directly.

## Model

| member | source | states |
|---|---|---|
| CalculateCost.SubtaskHours | src/utils/calculateCost.js:6-8 | the subtask fold, each estimate read through `parseFloat(..) \|\| 0`; its lemmas give non-negativity and independence from subtask costs |
| CalculateCost.TaskHours | src/utils/calculateCost.js:4-10 | a task's subtask hours when it has any, else its own estimate (`OwnEstimateIgnoredWithSubtasks`) |
| CalculateCost.TotalHours | src/utils/calculateCost.js:2-14 | the task fold; its lemmas give additivity over concatenation and non-negativity |
| CalculateCost.OtherCostsTotal | src/utils/calculateCost.js:18-22 | the amount fold; its lemmas give additivity and non-negativity |
| CalculateCost.TaskCostsTotal | src/utils/calculateCost.js:25-30 | the fold over each task's own `otherCosts`; its lemmas give additivity, non-negativity and that subtask costs are not read |
| CalculateCost.TotalCost | src/utils/calculateCost.js:33-44 | hours × rate plus both cost sums; its lemmas give the append step, non-negativity and the worked examples |
| CalculateCost.ProjectCost | src/utils/calculateCost.js:47-51 | rate × estimate, both read through `parseFloat(..) \|\| 0`; non-negative for non-negative inputs |
| CalculateCost.OwnEstimateIgnoredWithSubtasks | src/utils/calculateCost.js:4-10 | a task with at least one subtask contributes exactly its subtasks' hours, whatever its own estimate |
| CalculateCost.SubtaskHoursNotNegative | src/utils/calculateCost.js:6-8 | subtask hours with no negative estimate sum to at least 0 (unparsable ones count as 0) |
| CalculateCost.TotalHoursNonNegative | src/utils/calculateCost.js:2-14 | total hours are non-negative when no estimate is negative |
| CalculateCost.OtherCostsNonNegative | src/utils/calculateCost.js:18-22 | a cost list with no negative amount sums to at least 0 |
| CalculateCost.TaskCostsNonNegative | src/utils/calculateCost.js:25-30 | the tasks' own costs sum to at least 0 when no amount is negative |
| CalculateCost.TotalCostNonNegative | src/utils/calculateCost.js:33-44 | with non-negative inputs the total cost is non-negative |
| CalculateCost.ProjectCostNonNegative | src/utils/calculateCost.js:47-51 | a non-negative rate and estimate give a non-negative project cost |
| CalculateCost.TotalHoursConcat | src/utils/calculateCost.js:2-14 | hours are additive over concatenated task lists (and the empty list gives 0) |
| CalculateCost.OtherCostsConcat | src/utils/calculateCost.js:18-22 | the cost sum is additive over concatenated cost lists |
| CalculateCost.TaskCostsConcat | src/utils/calculateCost.js:25-30 | the task-cost sum is additive over concatenated task lists |
| CalculateCost.AppendTaskCost | src/utils/calculateCost.js:33-44 | appending a task raises the total by its hours × rate plus its own costs |
| CalculateCost.SubtaskCostsNeverCounted | src/utils/calculateCost.js:2-30 | changing subtasks' `otherCosts` changes neither the hours nor the task costs |
| CalculateCost.TotalCostIgnoresSubtaskCosts | src/utils/calculateCost.js:33-44 | the total cost does not depend on subtask-level costs |
| CalculateCost.SamePartsSameTotal | src/utils/calculateCost.js:38-43 | the total depends on the tasks only through their hours and their own costs |
| CalculateCost.MixedTasksHours | src/tests/utils/calculateCost.test.js:12-28 | a 5-hour task plus a 7-hour task with 5- and 2-hour subtasks gives 12 hours |
| CalculateCost.InvalidValuesHours | src/tests/utils/calculateCost.test.js:30-42 | invalid and missing estimates count as 0, giving 2 hours |
| CalculateCost.TaskCostsExamples | src/tests/utils/calculateCost.test.js:45-70 | the tasks' costs sum to 225, and to 0 when no task has costs |
| CalculateCost.TotalCostExamples | src/tests/utils/calculateCost.test.js:73-107 | the total costs are 725 and 20 |
| CalculateCost.ProjectCostExample | src/tests/utils/calculateCost.test.js:111-113 | rate 25 × 12 hours gives 300 |
| Text.TrimEmptyIffAllSpace | src/features/Task/CreateTask.jsx:84 | `trim()` gives "" exactly when every character is white space |
| Text.SecondPiece | src/features/Project/CreateProject.jsx:127 | `split(c)[1]` is undefined exactly when `c` does not occur, and never contains `c` |
| Text.SecondPieceAfterPrefix | src/features/Project/CreateProject.jsx:127 | for `p + c + q` with no `c` in `p` or `q`, `split(c)[1]` is `q` |
| Seqs.WithoutIndex | src/hooks/useTaskManagement.js:30-32 | filtering out index i removes exactly that element and keeps order; an index out of range changes nothing |
| Seqs.ReplaceIndex | src/hooks/useTaskManagement.js:43-45 | mapping index i to x replaces exactly that element; an index out of range changes nothing |
| Seqs.Find | src/hooks/useProjects.js:94 | `find` gives none exactly when nothing matches, otherwise the first match |
| QuoteNumber.ParseInt | src/hooks/useQuoteNumber.js:26 | `parseInt` on decimal text; `ParseIntOfToString` proves it reads back every `toString` |
| QuoteNumber.IntToString | src/hooks/useQuoteNumber.js:26 | `toString` of an integer; read back exactly by `ParseInt` |
| QuoteNumber.NextNumber | src/hooks/useQuoteNumber.js:25-26 | the stored counter plus one, "1" on an empty counter and "NaN" once it does not parse (`ConsecutiveNumbers`, `FirstNumber`, `NaNIsSticky`) |
| QuoteNumber.WebStorage.constructor | src/hooks/useQuoteNumber.js:4-5 | the two stores start as given |
| QuoteNumber.QuoteNumberHook.constructor | src/hooks/useQuoteNumber.js:11 | the hook starts with no number over the given storage |
| QuoteNumber.QuoteNumberHook.Display | src/hooks/useQuoteNumber.js:33 | `Formatted` of the current number: padded to three digits, or "" when there is none |
| QuoteNumber.ParseIntOfToString | src/hooks/useQuoteNumber.js:25-27 | `parseInt(n.toString())` is n for every integer, so the stored counter reads back as written |
| QuoteNumber.PadStart | src/hooks/useQuoteNumber.js:33 | `padStart(w, c)` has length max(w, \|s\|), ends with s, and is c before it |
| QuoteNumber.Formatted | src/hooks/useQuoteNumber.js:33 | a non-empty number is shown at least 3 long and ends with the number; none or "" shows "" |
| QuoteNumber.WebStorage.CurrentQuoteNumber | src/hooks/useQuoteNumber.js:39-41 | `getCurrentQuoteNumber` returns the stored counter text, or null when absent |
| QuoteNumber.WebStorage.ClearCurrentQuoteNumber | src/hooks/useQuoteNumber.js:44-46 | removes only the session key; local storage is unchanged |
| QuoteNumber.QuoteNumberHook.RunEffect | src/hooks/useQuoteNumber.js:13-30 | always removes the session key; a truthy existing number is adopted and the counter untouched; otherwise, when generating, the counter advances by one, is written back and becomes the state; else nothing changes |
| QuoteNumber.ConsecutiveNumbers | src/hooks/useQuoteNumber.js:24-29 | from counter n, two generating runs give n+1 then n+2 |
| QuoteNumber.FirstNumber | src/hooks/useQuoteNumber.js:25-28 | with no counter stored the first number is "1", shown as "001" |
| QuoteNumber.NaNIsSticky | src/hooks/useQuoteNumber.js:25-26 | once the counter is "NaN" every later number is "NaN" |
| QuoteNumber.FormatExamples | src/hooks/useQuoteNumber.js:33 | 7 shows as "007", 123 as "123", 1000 as "1000" |
| QuoteNumber.TwoNewQuotes | src/hooks/useQuoteNumber.js:13-30 | two new quotes get consecutive numbers, the counter holds the second, and no session number is kept |
| Storage.Store.constructor | src/utils/storage.js:6 | the store's entries and its availability and quota flags start as given |
| Storage.StorageKey | src/utils/storage.js:12 | the key is the prefix "simpliquote_" followed by the caller's key |
| Storage.StorageKeyInjective | src/utils/storage.js:12 | different keys never share a storage slot |
| Storage.Saved | src/utils/storage.js:12-18 | saving writes the envelope (version "1.0.0", timestamp, data) under the prefixed key and no other key changes |
| Storage.LoadFrom | src/utils/storage.js:29-41 | unavailable storage or an absent entry gives the default |
| Storage.Store.Save | src/utils/storage.js:10-24 | returns true and writes the envelope when storage accepts the write; false and nothing written otherwise |
| Storage.Store.Load | src/utils/storage.js:29-42 | returns the entry's data, undefined for an object without `data`, and the default for an absent, empty, null or unparsable entry |
| Storage.Store.Remove | src/utils/storage.js:47-56 | removes only the prefixed key and returns true, or returns false and changes nothing |
| Storage.Store.IsAvailable | src/utils/storage.js:61-70 | true exactly when the probe write succeeds; only the probe key is affected |
| Storage.SaveThenLoad | src/utils/storage.js:10-37 | loading a key just saved returns the saved data |
| Storage.SaveKeepsOtherKeys | src/utils/storage.js:12-31 | saving one key does not change what any other key loads |
| Storage.RemoveThenLoad | src/utils/storage.js:47-52 | after removal a load returns the default |
| Storage.RemoveKeepsOtherKeys | src/utils/storage.js:47-52 | removing one key does not change what any other key loads |
| Storage.UnusableEntriesGiveDefault | src/utils/storage.js:34-41 | an empty, null or unparsable entry loads as the default, never an exception |
| Storage.ProbeKeepsApplicationKeys | src/utils/storage.js:61-66 | the availability probe changes no load of any other key |
| Storage.SaveAndReload | src/utils/storage.js:10-37 | on working storage, save then load returns the data |
| Projects.ProjectStore.Synced | src/hooks/useProjects.js:9-21 | the state is what loading the stored text gives; every write method keeps it (`PersistThenLoad`) |
| Projects.LoadedProjects | src/hooks/useProjects.js:9-21 | the initial list is the stored array, or empty when absent, not an array or unparsable |
| Projects.NewRecord | src/hooks/useProjects.js:26-31 | keeps a given id or takes the clock's, keeps a given createdAt or takes now, sets updatedAt to now, leaves every other field as given |
| Projects.Merged | src/hooks/useProjects.js:60-69 | an updated record takes the payload's fields but keeps quoteNumber and createdAt, with updatedAt now |
| Projects.UpdatedList | src/hooks/useProjects.js:59-70 | only records with the id are merged; the length never changes |
| Projects.WithoutId | src/hooks/useProjects.js:82-84 | drops every record with the id and keeps every other one |
| Projects.ProjectStore.constructor | src/hooks/useProjects.js:7-21 | the list starts as what the store holds, and the two agree |
| Projects.ProjectStore.Persist | src/hooks/useProjects.js:46 | the list and the stored array become the same list |
| Projects.ProjectStore.SaveProject | src/hooks/useProjects.js:23-55 | returns the built record; a duplicate id changes neither list nor store; otherwise the record is appended and written |
| Projects.ProjectStore.UpdateProject | src/hooks/useProjects.js:57-77 | the list becomes the merged list and is written to the store |
| Projects.ProjectStore.DeleteProject | src/hooks/useProjects.js:79-91 | the list loses every record with the id and is written to the store |
| Projects.ProjectStore.GetProject | src/hooks/useProjects.js:93-95 | none exactly when no record has the id, otherwise the first record with that id |
| Projects.PersistThenLoad | src/hooks/useProjects.js:11-15 | a written list loads back unchanged |
| Projects.UnusableStoreLoadsEmpty | src/hooks/useProjects.js:11-20 | a missing, non-array or unparsable stored value loads as the empty list |
| Projects.SavedProjectIsFound | src/hooks/useProjects.js:45 | a record appended under a new id is the one `find` returns |
| Projects.DeletedProjectIsGone | src/hooks/useProjects.js:82-84 | after delete no record with the id is found |
| Projects.DeleteKeepsOrder | src/hooks/useProjects.js:82-84 | delete keeps the surviving records in order |
| Projects.UpdateCanChangeId | src/hooks/useProjects.js:62-67 | a payload with another id changes the record's id, while its quoteNumber is kept |
| Projects.SaveTwice | src/hooks/useProjects.js:35-47 | saving the same new record twice appends it once and writes that list to storage |
| UserDetailsHook.StoredDetails | src/hooks/useUserDetails.js:16-19 | the stored details are read exactly when a details entry is present |
| UserDetailsHook.UserDetailsState.constructor | src/hooks/useUserDetails.js:8-9 | no details and the welcome dialog hidden before the effect runs |
| UserDetailsHook.OtherValue | src/hooks/useUserDetails.js:18 | stored JSON that is not a profile parses to itself, except "null", which gives no value |
| UserDetailsHook.UserDetailsState.Mount | src/hooks/useUserDetails.js:11-25 | adopts whatever truthy stored details parse to (a profile or another JSON value), keeps the old value when nothing is stored, shows the welcome dialog exactly when the flag is absent, and fails exactly when the stored text does not parse |
| UserDetailsHook.UserDetailsState.SaveUserDetails | src/hooks/useUserDetails.js:27-31 | sets the details, writes them and the flag "true", and leaves the dialog as it was |
| UserDetailsHook.UserDetailsState.SkipWelcome | src/hooks/useUserDetails.js:33-36 | writes the flag "true", hides the dialog and leaves the details alone |
| UserDetailsHook.FirstVisit | src/hooks/useUserDetails.js:11-25 | on empty storage the welcome dialog shows and there are no details |
| UserDetailsHook.NonProfileDetailsStillWelcome | src/hooks/useUserDetails.js:11-25 | stored JSON that is not a profile is adopted as parsed and the welcome dialog still shows |
| UserDetailsHook.NextSessionAfterSave | src/hooks/useUserDetails.js:11-31 | after saving details a fresh mount shows them and hides the dialog |
| UserDetailsHook.NextSessionAfterSkip | src/hooks/useUserDetails.js:11-36 | after skipping a fresh mount hides the dialog and the stored details are unchanged |
| UserDetailsHook.FlagSetHidesWelcome | src/hooks/useUserDetails.js:22-24 | once the flag is written the welcome check is satisfied |
| UseForm.Applied | src/hooks/useForm.js:49 | the named field set to the value; `AfterInput` keeps every other field |
| UseForm.TotalIsCurrent | src/hooks/useForm.js:51-64 | the total equals the task total with tasks on, else rate × estimate; established by every rate or estimate edit and by toggling tasks |
| UseForm.AfterInput | src/hooks/useForm.js:44-67 | only the named field changes; a rate or estimate edit makes the total current for the task mode; any other edit, tasks included, keeps the old total |
| UseForm.ProjectForm.constructor | src/hooks/useForm.js:19-35 | the form starts from the given project or the defaults, tasks on exactly when it has tasks, not dirty, no warning |
| UseForm.ProjectForm.HandleInputChange | src/hooks/useForm.js:44-75 | the form becomes the input applied; dirty is set when an existing project's field strictly differs from the value |
| UseForm.ProjectForm.HandleAddTask | src/hooks/useForm.js:77-94 | appends the task and recomputes the total, which rises by the task's hours × rate plus its costs; an existing project becomes dirty |
| UseForm.ProjectForm.HandleAddCosts | src/hooks/useForm.js:96-109 | replaces the project's costs wholesale, recomputes the total and closes the costs dialog |
| UseForm.ProjectForm.ToggleTasks | src/hooks/useForm.js:111-151 | on: restores the stashed tasks, clears the estimate and saves it; off: stashes the tasks, restores the saved estimate; the total is current either way |
| UseForm.ProjectForm.ConfirmCancel | src/hooks/useForm.js:153-163 | a new or dirty form opens the warning and stores the action; otherwise the action runs at once |
| UseForm.ProjectForm.HandleWarningClose | src/hooks/useForm.js:165-168 | closes the warning and forgets the action |
| UseForm.ProjectForm.HandleWarningConfirm | src/hooks/useForm.js:170-175 | runs the stored action once, if any, then closes the warning and forgets it |
| UseForm.CancelNewProject | src/hooks/useForm.js:153-175 | cancelling a new project and confirming runs the action exactly once |
| UseForm.CancelThenStay | src/hooks/useForm.js:153-168 | cancelling then closing the warning runs nothing and keeps the form |
| UseForm.TasksOffAndOn | src/hooks/useForm.js:111-151 | switching tasks off and on brings the same tasks back with a current total |
| UseForm.TasksOnAndOff | src/hooks/useForm.js:111-151 | switching tasks on and off brings the estimate back and prices rate × estimate |
| UseForm.TasksEditLeavesTotalStale | src/hooks/useForm.js:48-66 | an edit of the tasks field leaves the total as it was, no longer current |
| UseForm.CostsDroppedByRateEditWithoutTasks | src/hooks/useForm.js:51-58 | with tasks off, a rate edit drops the project's costs from the total (50 becomes 20) |
| UseForm.TaskForm.constructor | src/hooks/useForm.js:204-224 | the task form starts from the given task or the defaults, subtasks on exactly when it has some |
| UseForm.TaskForm.HandleInputChange | src/hooks/useForm.js:226-232 | sets only the named field |
| UseForm.TaskForm.ToggleSubtasks | src/hooks/useForm.js:234-240 | off empties the confirmed subtasks; on keeps them |
| UseForm.TaskForm.HandleAddSubtask | src/hooks/useForm.js:242-246 | opens a blank subtask editor, not editing, no index |
| UseForm.TaskForm.HandleEditSubtask | src/hooks/useForm.js:248-256 | loads the subtask at the index (none when out of range) and marks it as being edited |
| UseForm.TaskForm.HandleConfirmSubtask | src/hooks/useForm.js:258-261 | appends the subtask and closes the editor |
| UseForm.TaskForm.HandleUpdateSubtask | src/hooks/useForm.js:263-268 | replaces only the subtask at the index, keeping the length |
| UseForm.TaskForm.HandleRemoveSubtask | src/hooks/useForm.js:270-272 | removes only the subtask at the index and keeps order |
| UseForm.TaskForm.HandleAddCosts | src/hooks/useForm.js:274-279 | replaces the task's costs and nothing else |
| UseForm.EditAndSaveUnchanged | src/hooks/useForm.js:248-268 | editing a subtask and saving it unchanged leaves the list as it was |
| UseForm.ConfirmThenRemove | src/hooks/useForm.js:258-272 | confirming a subtask and removing the last one leaves the list as it was |
| TaskManagement.NormalisedSubtask | src/hooks/useTaskManagement.js:13-16 | a subtask's estimate becomes the number it counted as, and nothing else changes |
| TaskManagement.Normalised | src/hooks/useTaskManagement.js:10-17 | the task's and every subtask's estimate become numbers; count and other fields are kept |
| TaskManagement.NormalisedHours | src/hooks/useTaskManagement.js:10-17 | normalising does not change the hours a task contributes |
| TaskManagement.NormalisedIdempotent | src/hooks/useTaskManagement.js:10-17 | normalising twice is normalising once |
| TaskManagement.TaskManager.constructor | src/hooks/useTaskManagement.js:4-6 | an empty list, dialog closed, nothing reported |
| TaskManagement.TaskManager.Notify | src/hooks/useTaskManagement.js:21 | the callback, if given, receives exactly the current list |
| TaskManagement.TaskManager.HandleAddTask | src/hooks/useTaskManagement.js:8-26 | appends the normalised task and reports the new list |
| TaskManagement.TaskManager.HandleRemoveTask | src/hooks/useTaskManagement.js:28-39 | removes only the task at the index, keeps order, ignores an index out of range, and reports the list |
| TaskManagement.TaskManager.HandleEditTask | src/hooks/useTaskManagement.js:41-52 | replaces only the task at the index, keeping the length, and reports the list |
| TaskManagement.AddedTaskHours | src/hooks/useTaskManagement.js:19-21 | adding a task raises the hours by what the task contributes |
| TaskManagement.AddThenRemove | src/hooks/useTaskManagement.js:8-39 | add then remove-last restores the list; the callback saw both lists |
| CreateCosts.Addable | src/features/Costs/CreateCosts.jsx:32 | the add guard: a truthy name and a truthy amount (`HandleAddCost`, `EditZeroThenAdd`) |
| CreateCosts.AddedCost | src/features/Costs/CreateCosts.jsx:36-40 | the new cost has the clock's id, the editor's name and category, and the parsed amount |
| CreateCosts.DraftOf | src/features/Costs/CreateCosts.jsx:55 | re-adding a loaded cost gives it back with its amount parsed |
| CreateCosts.WithoutCost | src/features/Costs/CreateCosts.jsx:51 | drops every cost with the id, keeps every other one, and never lengthens the list |
| CreateCosts.CostsEditor.constructor | src/features/Costs/CreateCosts.jsx:16-21 | the list starts as the given costs, the editor blank with category Materials |
| CreateCosts.CostsEditor.HandleInputChange | src/features/Costs/CreateCosts.jsx:23-29 | sets only the named editor field |
| CreateCosts.CostsEditor.HandleAddCost | src/features/Costs/CreateCosts.jsx:31-48 | without a name or a truthy amount nothing changes; otherwise one cost is appended and the editor is blanked |
| CreateCosts.CostsEditor.HandleRemoveCost | src/features/Costs/CreateCosts.jsx:50-52 | removes every cost with the id, keeping the rest |
| CreateCosts.CostsEditor.HandleEditCost | src/features/Costs/CreateCosts.jsx:54-57 | loads the cost into the editor and removes it from the list |
| CreateCosts.RemoveKeepsOrder | src/features/Costs/CreateCosts.jsx:51 | removal keeps the survivors in order |
| CreateCosts.EditThenAdd | src/features/Costs/CreateCosts.jsx:31-57 | editing then adding puts the same name, category and amount at the end under a new id |
| CreateCosts.EditZeroThenAdd | src/features/Costs/CreateCosts.jsx:31-57 | a cost of 0 cannot be re-added after editing: it is lost from the list and stays in the editor |
| CreateCosts.AddFromBlank | src/tests/features/Costs/CreateCosts.test.jsx:31-52 | "Test Cost", Materials, "100" gives one cost of 100 |
| CreateTask.NameMissing | src/features/Task/CreateTask.jsx:84 | the trimmed name is empty (`NameRejectedIffBlank`) |
| CreateTask.HoursInvalid | src/features/Task/CreateTask.jsx:89 | a falsy estimate or one that parses to at most 0; NaN passes (`AcceptedHours`, `NonNumericHoursAccepted`) |
| CreateTask.SubtaskProblem | src/features/Task/CreateTask.jsx:82-96 | the name message exactly when the trimmed name is empty; else the hours message exactly when the estimate is empty or parses to ≤ 0; else none |
| CreateTask.NameRejectedIffBlank | src/features/Task/CreateTask.jsx:84-88 | a name is rejected exactly when it is all white space |
| CreateTask.AcceptedHours | src/features/Task/CreateTask.jsx:89-93 | an accepted estimate is positive or does not parse, so it counts as non-negative |
| CreateTask.NonNumericHoursAccepted | src/features/Task/CreateTask.jsx:89 | the estimate "abc" is accepted and adds no hours |
| CreateTask.AcceptedSubtasksHours | src/features/Task/CreateTask.jsx:123-129 | accepted subtasks sum to non-negative hours |
| CreateTask.TaskData | src/features/Task/CreateTask.jsx:143-149 | the submitted task copies the form; with subtasks on it carries them and their sum, otherwise none and the form's estimate as a number |
| CreateTask.SubmittedTaskHours | src/features/Task/CreateTask.jsx:143-149 | the aggregator counts the submitted task for exactly the hours the dialog showed |
| CreateTask.ValidateSubtask | src/features/Task/CreateTask.jsx:82-96 | returns true exactly when there is no problem, and the error is that problem's message or "" |
| CreateTask.ListAfterConfirm | src/features/Task/CreateTask.jsx:101-107 | when editing with an index, only that subtask is replaced; otherwise the subtask is appended |
| CreateTask.ConfirmSubtaskClick | src/features/Task/CreateTask.jsx:98-113 | no editor: nothing changes; invalid: only the error is set; valid: the list is updated and the editor reset |
| CreateTask.CommitSubtask | src/features/Task/CreateTask.jsx:101-111 | stores the subtask by replace or append, then resets the editor |
| CreateTask.ConfirmDeleteSubtask | src/features/Task/CreateTask.jsx:69-80 | removes the chosen index and closes the dialog when an index is chosen; otherwise nothing changes |
| CreateTask.HandleTaskSubmit | src/features/Task/CreateTask.jsx:131-161 | an unconfirmed subtask plus a declined prompt submits nothing; otherwise the task data is submitted |
| CreateTask.AddSubtaskFlow | src/features/Task/CreateTask.jsx:98-113 | a valid subtask typed in a fresh editor ends up last in the list |
| CreateProject.LabelText | src/components/QuoteNumber.jsx:20-25 | the label is empty without a number and "Quote #: " followed by the number otherwise |
| CreateProject.ExtractQuoteNumberAsWritten | src/features/Project/CreateProject.jsx:126-128 | fails exactly when the text has no '#', else gives the trimmed second piece |
| CreateProject.AsWrittenKeepsColon | src/features/Project/CreateProject.jsx:126-128 | on a label it gives ": " followed by the number |
| CreateProject.AsWrittenNeverRoundTrips | src/features/Project/CreateProject.jsx:126-128 | on a label it never gives back the number shown |
| CreateProject.ExtractQuoteNumber | src/features/Project/CreateProject.jsx:126-128 | fails exactly when there is no '#', else gives a trimmed piece without the colon |
| CreateProject.ExtractRoundTrip | src/features/Project/CreateProject.jsx:126-128 | on a label it gives back exactly the number shown |
| CreateProject.DisplayedNumberIsLabelSafe | src/hooks/useQuoteNumber.js:33 | every number the counter displays has no '#' and no white space |
| CreateProject.CounterNumberRoundTrip | src/features/Project/CreateProject.jsx:126-128 | every displayed counter number is read back from its label |
| CreateProject.SubmittedProject | src/features/Project/CreateProject.jsx:120-132 | the form with only quoteNumber overridden: null without the element, an error exactly when the text has no '#', else the number as the code extracts it |
| CreateProject.SubmitRecordsDisplayedNumber | src/features/Project/CreateProject.jsx:123-132 | as written, submitting while the counter shows n records ": " followed by n |
| CreateProject.IntendedSubmittedProject | src/features/Project/CreateProject.jsx:120-132 | the same handler with the intended extraction: an error exactly when there is no '#', else the number without the colon |
| CreateProject.IntendedSubmitRecordsDisplayedNumber | src/features/Project/CreateProject.jsx:123-132 | as intended, submitting records exactly the number the label displays |
| CreateProject.ProjectEditor.constructor | src/features/Project/CreateProject.jsx:37-40 | both dialogs closed, no index chosen |
| CreateProject.ProjectEditor.HandleEditClick | src/features/Project/CreateProject.jsx:62-66 | records the index and opens the task dialog |
| CreateProject.ProjectEditor.HandleRemoveClick | src/features/Project/CreateProject.jsx:68-72 | records the index and opens the delete dialog |
| CreateProject.ProjectEditor.HandleConfirmDelete | src/features/Project/CreateProject.jsx:74-85 | clears the choice and closes the dialog; the form, its tasks included, is unchanged |
| CreateProject.ProjectEditor.HandleUpdateTask | src/features/Project/CreateProject.jsx:87-118 | with an index, replaces only that task (total not recomputed); without one, does what `handleAddTask` does: appends it, recomputes the total from the old costs and rate, and marks an existing project dirty; every other form field stays as it was and the dialog closes |
| CreateProject.RemoveAndConfirm | src/features/Project/CreateProject.jsx:68-85 | asking to delete a task and confirming leaves the form as it was |

## Left out

- Rendering, markup, styling and DOM event plumbing. A handler receives the field name and value
  directly.
- React scheduling: batched `setState`, effect order and stale closures. Each handler is one
  atomic step on current state.
- `handleSave` in `CreateCosts.jsx` (lines 59-71) and `handleCancelSubtask` in `CreateTask.jsx`.
  The first submits the list captured before its own add, which is a scheduling effect. The second
  only resets editor fields.
- The re-sync effect of `useProjectForm` (`useForm.js` lines 37-42) and the `useEffect` of
  `CreateTask.jsx` (lines 59-67). Both react to new props between renders.
- `window.confirm` prompts become a boolean parameter. `console` logging is dropped.
- The `parseFloat` grammar: typed text carries its own parse result. JSON (de)serialisation is an
  opaque, faithful encoding. `JSON.stringify` inequality is structural inequality.
- `parseInt`: the `0x` prefix and values beyond 2^53 are not modelled. Integers are unbounded, and
  float rounding is out: amounts and hours are `real`.
- `Date.now()` and `new Date().toISOString()` are parameters.
- A project id that is `null` and one that is `undefined` are both "absent".
- The `onSubmit` callback of the task and project forms: the submitted value is returned instead.
  An absent callback is not modelled.
- UserDetailsHook.UserDetailsState.Mount: the exception `JSON.parse` throws on unreadable details is
  a `false` result that leaves the state unchanged. Stored JSON that is not a profile is kept as
  its text; white space around "null" is not recognised as null.
- Projects.ProjectStore.SaveProject: the localStorage write never fails, so the catch path that
  returns null is not modelled.
- Projects.ProjectStore.UpdateProject: the localStorage write never fails, so the catch path is not
  modelled.
- Projects.ProjectStore.DeleteProject: the localStorage write never fails, so the catch path is not
  modelled.
- QuoteNumber.QuoteNumberHook.RunEffect: reads and writes of localStorage and sessionStorage never
  fail.
- UserDetailsHook.UserDetailsState.SaveUserDetails: the localStorage writes never fail.
- UserDetailsHook.UserDetailsState.SkipWelcome: the localStorage write never fails.
- The label-to-number step in `handleSubmit` is stated for every counter number rather than for the
  one example "007".

## Findings

| source | as written | input that shows it | evidently intended | confidence | as-written member | corrected member |
|---|---|---|---|---|---|---|
| src/features/Project/CreateProject.jsx:126-128 | the quote number is `textContent.split("#")[1].trim()` on the label "Quote #: " + number | label "Quote #: 007" gives ": 007", not "007" | the number shown, "007" | not executed | CreateProject.SubmitRecordsDisplayedNumber | CreateProject.IntendedSubmitRecordsDisplayedNumber |
