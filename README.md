# clo-workflows stores, modelled in Dafny

clo-workflows is a copyright-licensing request workflow. A client creates
projects, the works a project uses, and one process per (project, work)
request. Employees then move each process through a fixed sequence of
steps. Two MobX stores hold the state of the two web front ends:

- `EmployeeStore`:
  - loads the employee's active processes, then the projects and works they refer to;
  - caches all three by `String(Id)` in observable maps;
  - lets the employee focus a step or search by title;
  - selects a process together with its work, its project and their notes;
  - edits and submits the selection;
  - advances a process to the next step, stamping who submitted it and when;
  - keeps a navigation stack (`viewHierarchy`) and its breadcrumbs.
- `ClientStore`:
  - holds the client's three draft records (project, work and process);
  - validates the form currently shown;
  - groups the client's processes by project (`cleanProjects`), each group
    with a count and a start index into the sorted process list;
  - submits a project, a work or a process request, each followed by a
    status message.

The model keeps the stores' shape:

- **Classes with fields.** Each store is a class whose fields are the observable state.
  - The caches are `Caches.ObsMap` values: insertion-ordered maps, as MobX observable maps are.
  - Records are `Elements.Element` maps from field name to string or number.
- **Actions.** Each action is a method with a `modifies` frame naming the fields it writes.
- **Computed getters.** Getters are functions that read the fields.
- **Throwing.** JavaScript's `TypeError` on reading a missing value is `Wrappers.Try.Throws`.
  - A computed value that can throw returns a `Try`.
  - A command that can throw returns a `threw` flag.
  - After a throw, the fields written before that point keep their new values.
- **Data service.** Calls are not executed.
  - Every command returns the sequence of `Service.Call`s it would make.
  - It receives each call's outcome as a parameter: the fetched list, or `None` when that fetch was not answered, and `serviceOk` for a write.
- **Deriving functions.** What the stores derive is stated as functions with their own lemmas:
  - the counts of processes per step;
  - the step-filtered cache;
  - process briefs;
  - the next-step advance;
  - the navigation stack;
  - the project groups and their start indices.

Two behaviours of the code are kept as written:

- `currentFormValidation` validates `this.newWork || this.newProject`. The draft work is always an object, so the draft work is validated even when the project form is showing (ClientStore.ts:75).
- `submitProcess` links the process to `view.workId`, not to the id that `submitWork` just stored in `selectedWorkId` (ClientStore.ts:221).

## Model

| member | source | states |
|---|---|---|
| Elements.SetOpt | clo-workflows/Scripts/src/store/ClientStore.ts:181 | `map.set(field, v)`: the field then reads back as `v`, when `v` is undefined too, and every other field is unchanged |
| Elements.ParseNumber | clo-workflows/Scripts/src/store/EmployeeStore.ts:36 | `Number(s)`: the empty string is 0 and a string of decimal digits reads as its decimal value |
| Elements.ParseSigned | clo-workflows/Scripts/src/store/EmployeeStore.ts:36 | a `-` or `+` before decimal digits gives the negated or the plain value; the result is NaN exactly for the spellings that are neither empty, digits, nor a sign before digits |
| Elements.NumberOfIntToString | clo-workflows/Scripts/src/store/EmployeeStore.ts:36 | `Number(String(n)) == n` for every integer, so a numeric id stored as a string field is fetched by the same number |
| Elements.OrEmpty | clo-workflows/Scripts/src/store/EmployeeStore.ts:542 | `${x \|\| ""}` is empty exactly when the value is falsy (unset, "" or 0), and is the value's string otherwise |
| Lists.FindIndex | clo-workflows/Scripts/src/store/ClientStore.ts:244 | `findIndex`: the first index whose element satisfies the predicate; -1 exactly when no element does |
| Lists.SpliceOne | clo-workflows/Scripts/src/store/EmployeeStore.ts:600 | `splice(start, 1)`: removes the element at `start`; -1 removes the last element; an empty list stays empty |
| Lists.ReplaceFirst | clo-workflows/Scripts/src/store/ClientStore.ts:243-250 | found exactly when some element matches; then the first match is overwritten and every other index is kept; otherwise the list is unchanged |
| Lists.MapTry | clo-workflows/Scripts/src/store/EmployeeStore.ts:404-424 | `list.map(f)` where `f` may throw: succeeds exactly when every call succeeds, and then yields the results in order |
| Caches.ObsMap.Set | clo-workflows/Scripts/src/store/EmployeeStore.ts:90 | `map.set(k, v)`: read-your-writes at `k`, every other key unchanged; a new key goes last, an existing key keeps its place |
| Caches.ObsMap.Values | clo-workflows/Scripts/src/store/EmployeeStore.ts:303 | `values()` lists the entries in key-insertion order |
| Caches.MapById | clo-workflows/Scripts/src/store/EmployeeStore.ts:33 | the cache built from a list is well formed and holds every element under `String(element.Id)` |
| Caches.MapByIdDomain | clo-workflows/Scripts/src/store/EmployeeStore.ts:33 | a key is cached exactly when some element of the list has that Id key |
| Caches.MapByIdKeysOfDistinct | clo-workflows/Scripts/src/store/EmployeeStore.ts:33 | with distinct Ids, the cache's insertion order is the list's order of Id keys |
| Caches.MapByIdEntriesOfDistinct | clo-workflows/Scripts/src/store/EmployeeStore.ts:33 | with distinct Ids, each element is cached under its own Id key |
| Caches.MapByIdValuesOfDistinct | clo-workflows/Scripts/src/store/EmployeeStore.ts:314 | with distinct Ids, `values()` of the built cache gives the list back, in order |
| Caches.ReplaceKeepsKeyed | clo-workflows/Scripts/src/store/EmployeeStore.ts:90 | replacing an element under its own Id key keeps the cache keyed by Id and makes `get` return the new element |
| Caches.ValuesOfKeyedDistinct | clo-workflows/Scripts/src/store/EmployeeStore.ts:313 | the values of a cache keyed by Id have pairwise distinct Id keys, each equal to its key |
| Steps.GetStep | clo-workflows/Scripts/src/store/EmployeeStore.ts:265 | `getStep(name)` is defined exactly when some step has that name, and then returns that step |
| Steps.GetStepById | clo-workflows/Scripts/src/store/EmployeeStore.ts:409 | `getStepById(n)` is defined exactly when some step has order id n, and then returns that step |
| Steps.StepForFieldName | clo-workflows/Scripts/src/store/EmployeeStore.ts:240 | the step owning a submitter or submission-date field: defined exactly when some step owns it |
| Steps.LookupOwnStep | clo-workflows/Scripts/src/store/EmployeeStore.ts:408-409 | in a table with unique names and order ids, every step is found by its own name and by its own order id |
| Steps.NextStepOrder | clo-workflows/Scripts/src/store/EmployeeStore.ts:270 | the next step has order id one more than the current one, and exists exactly when some step has that order id |
| Notes.ReplaceNote | clo-workflows/Scripts/src/store/EmployeeStore.ts:476-477 | found exactly when some note has the same Id; then the note overwrites the first note with that Id and every other slot, later same-Id notes included, is kept; the list is unchanged when nothing matches |
| Notes.RemoveAsWrittenDropsFirst | clo-workflows/Scripts/src/store/EmployeeStore.ts:598-601 | as written, removal drops the first note whatever the target, and an empty list stays empty |
| Notes.RemoveAsWrittenKeepsTarget | clo-workflows/Scripts/src/store/EmployeeStore.ts:598-601 | deleting the second of two notes with distinct Ids keeps that note and drops the other one |
| Notes.RemoveNoteById | clo-workflows/Scripts/src/store/EmployeeStore.ts:500-501 | corrected removal: one note shorter when some note has the target's Id, unchanged otherwise; every note with another Id keeps its multiplicity; with distinct Ids no note with the target's Id remains |
| Notes.StampNewNote | clo-workflows/Scripts/src/store/EmployeeStore.ts:432-446 | date and submitter are set; a client-scoped note gets the process's submitter as client id; the note is linked to the selected project or work by `String(Id)`; it is complete exactly when every selection it reads is present |
| Navigation.KeyStringInjective | clo-workflows/Scripts/src/store/EmployeeStore.ts:604-607 | distinct view keys have distinct strings, so a key string names one view |
| Navigation.ReduceToSpec | clo-workflows/Scripts/src/store/EmployeeStore.ts:527-529 | `slice(0, indexOf(k) + 1)`: a prefix of the stack ending at the first occurrence of k; empty when k is not on the stack |
| Navigation.Extend | clo-workflows/Scripts/src/store/EmployeeStore.ts:532-534 | push: the old stack is a prefix and the new key is the current view |
| Navigation.ReduceAfterExtend | clo-workflows/Scripts/src/store/EmployeeStore.ts:527-534 | reducing to a key already on the stack undoes a later push |
| Navigation.ReduceIdempotent | clo-workflows/Scripts/src/store/EmployeeStore.ts:527-529 | reducing twice to the same key is the same as reducing once |
| Navigation.ReduceToDashboard | clo-workflows/Scripts/src/store/EmployeeStore.ts:279 | a stack rooted at Dashboard stays rooted when reduced, and reducing to Dashboard leaves exactly `[Dashboard]` |
| Navigation.Breadcrumbs | clo-workflows/Scripts/src/store/EmployeeStore.ts:537-551 | one crumb per stacked view, in order, keyed by the view; a crumb is current exactly when its view equals the current view (the top of the stack), so every stacked copy of the top view is current; the dashboard crumb reads "Processor Dashboard" and the detail crumb `<type> Process <Id> Detail` with falsy parts empty; it throws exactly when ProcessDetail is stacked with no selected process |
| Processes.CountsByStepDomain | clo-workflows/Scripts/src/store/EmployeeStore.ts:302-307 | a step name is counted exactly when some active process is at it |
| Processes.CountsByStepCount | clo-workflows/Scripts/src/store/EmployeeStore.ts:302-307 | each count is the number of active processes at that step |
| Processes.CountsByStepSum | clo-workflows/Scripts/src/store/EmployeeStore.ts:302-307 | the counts add up to the number of active processes |
| Processes.AtStepFilter | clo-workflows/Scripts/src/store/EmployeeStore.ts:313 | the filtered list only holds processes of the input at the given step |
| Processes.AtStepFilterMember | clo-workflows/Scripts/src/store/EmployeeStore.ts:313 | a process is kept exactly when it is in the input and at the step |
| Processes.AtStepFilterDistinct | clo-workflows/Scripts/src/store/EmployeeStore.ts:313 | filtering keeps Ids distinct |
| Processes.StepProcessesSpec | clo-workflows/Scripts/src/store/EmployeeStore.ts:311-315 | the focused step's cache holds exactly the active processes at that step, each under its own key, in the active cache's order |
| Processes.AuthorNameFirst | clo-workflows/Scripts/src/store/EmployeeStore.ts:416-419 | a truthy `authorName` is the author, and no other field, `artist` and `composer` included, changes it |
| Processes.ArtistBeforeComposer | clo-workflows/Scripts/src/store/EmployeeStore.ts:416-419 | without an author name, a truthy `artist` is the author, and `composer` or any other field does not change it |
| Processes.BriefOfSpec | clo-workflows/Scripts/src/store/EmployeeStore.ts:404-423 | a brief is built exactly when the process's work, project, step and previous step all resolve; it carries the process Id and is selectable; its header is `<department> <work type> Process` from the cached project and work, with falsy parts empty; its subheader is "submitted to <step> on <date>", the date being the previous step's submission date on the process, or "an unknown date" when that is falsy; its body is the work's title, " - " and its first known author |
| Processes.ProjectBriefs | clo-workflows/Scripts/src/store/EmployeeStore.ts:398-425 | nothing while a cache is not loaded; once all are loaded, the briefs are ready exactly when every process resolves (work, project, step and previous step found), and then there is one selectable brief per process, in cache order, with the process's Id; otherwise the projection faults |
| Processes.BriefsOfResolvable | clo-workflows/Scripts/src/store/EmployeeStore.ts:404-424 | the briefs of a list are built exactly when every process resolves, and then each is that process's own brief, in order |
| Processes.ProjectBriefsEach | clo-workflows/Scripts/src/store/EmployeeStore.ts:404-424 | each projected brief is the brief of the process at the same place in the cache |
| Processes.BriefHeaderExample | clo-workflows/Scripts/src/store/EmployeeStore.ts:412 | the header of a brief for a Film project's Music work is "Film Music Process" |
| Processes.SongAProjection | clo-workflows/Scripts/src/store/EmployeeStore.ts:398-425 | caches holding one Intake process of a Film project's Music work "Song A" with no author and no recorded date, with Intake preceded by another step, project to the single brief "Film Music Process" / "submitted to Intake on an unknown date" / "Song A - unknown artist" with Id 1 |
| Processes.SelectBriefFindsProcess | clo-workflows/Scripts/src/store/EmployeeStore.ts:370 | selecting brief i looks up `String(brief.id)`, which finds exactly the process the brief was built from |
| Processes.Advance | clo-workflows/Scripts/src/store/EmployeeStore.ts:265-274 | defined exactly when the current and next steps exist; the submitter and date fields of the current step are stamped; `step` names the next step; Id and every other field are kept |
| Processes.MetadataAfterAdvance | clo-workflows/Scripts/src/store/EmployeeStore.ts:239-248 | round trip with submitSelectedProcess: after a process is advanced past step S by a non-empty user at a non-empty time, the metadata of either of S's stamp fields reads "submitted by <user> on <time>" (stamp fields not shared between steps) |
| Steps.OwnStampField | clo-workflows/Scripts/src/store/EmployeeStore.ts:240 | when no two steps share a stamp field, a stamp field is owned by exactly the step it belongs to |
| EmployeeStore.EmployeeStore.constructor | clo-workflows/Scripts/src/store/EmployeeStore.ts:519 | nothing loaded or selected, nothing editable, no notes, no focus, stack `[Dashboard]`, pivot "work", client mode and lockout off |
| EmployeeStore.EmployeeStore.Init | clo-workflows/Scripts/src/store/EmployeeStore.ts:29-52 | fetches processes, then their projects and works by `Number(projectId)` and `Number(workId)`; each cache is the fetched list keyed by Id; the selections are cleared and the lockout ends off only when all three fetches return |
| EmployeeStore.EmployeeStore.CanSubmitSelectedWork | clo-workflows/Scripts/src/store/EmployeeStore.ts:101-104 | false under the lockout; throws exactly when unlocked with no selected work; true exactly when unlocked, the work's form shows no errors and the request is active |
| EmployeeStore.EmployeeStore.CanSubmitSelectedProject | clo-workflows/Scripts/src/store/EmployeeStore.ts:173-176 | the same for the selected project |
| EmployeeStore.EmployeeStore.CanSubmitSelectedProcess | clo-workflows/Scripts/src/store/EmployeeStore.ts:290-293 | false under the lockout; throws when unlocked and the view or the selection is missing; true exactly when a step is focused and the process's form has no errors |
| EmployeeStore.EmployeeStore.ProcessCountsByStep | clo-workflows/Scripts/src/store/EmployeeStore.ts:300-308 | throws before loading; otherwise the steps counted are those some active process is at, each count is the number at that step, and the counts sum to the number of active processes |
| EmployeeStore.EmployeeStore.SelectedStepProcesses | clo-workflows/Scripts/src/store/EmployeeStore.ts:310-316 | null without a focused step; throws when focused before loading; otherwise exactly the active processes at the focused step, in order |
| EmployeeStore.EmployeeStore.SelectedStepProcessBriefs | clo-workflows/Scripts/src/store/EmployeeStore.ts:324-327 | throws exactly when the step filter throws; nothing while unfocused or unloaded; otherwise one brief per step process |
| EmployeeStore.EmployeeStore.SearchedProcessBriefs | clo-workflows/Scripts/src/store/EmployeeStore.ts:352-357 | nothing unless a search is focused; otherwise one brief per searched process |
| EmployeeStore.EmployeeStore.UnfocusSearch | clo-workflows/Scripts/src/store/EmployeeStore.ts:342-347 | the three search caches are cleared, so no search is focused and `selectedProcessView` is defined exactly when a step is focused |
| EmployeeStore.EmployeeStore.SelectFocusStep | clo-workflows/Scripts/src/store/EmployeeStore.ts:207-211 | the step becomes the focus, the search loses focus, and `selectedProcessView` is then the focused step's form |
| EmployeeStore.EmployeeStore.CacheSearchResults | clo-workflows/Scripts/src/store/EmployeeStore.ts:335-340 | the search caches are the three result lists keyed by Id, the step focus is dropped, and `selectedProcessView` is then the "Complete" form |
| EmployeeStore.EmployeeStore.SearchProcesses | clo-workflows/Scripts/src/store/EmployeeStore.ts:329-341 | searches by title, then fetches the works and projects of the results; the search caches are replaced only when all three fetches return; otherwise nothing but the calls changes |
| EmployeeStore.EmployeeStore.SelectProcess | clo-workflows/Scripts/src/store/EmployeeStore.ts:363-396 | from the active or the searched caches: copies the process found by the brief's id, pushes ProcessDetail, copies its work and project, and fetches the work's and the project's notes; it throws at the first cache that is not loaded, keeping what was set before |
| EmployeeStore.EmployeeStore.ResetSelectedWork | clo-workflows/Scripts/src/store/EmployeeStore.ts:121-124 | the selected work becomes the restored copy, or stays when that throws |
| EmployeeStore.EmployeeStore.ResetSelectedProject | clo-workflows/Scripts/src/store/EmployeeStore.ts:188-191 | the same for the project |
| EmployeeStore.EmployeeStore.StartEditingSelectedWork | clo-workflows/Scripts/src/store/EmployeeStore.ts:106-109 | the work becomes editable, so `selectedWorkView` is then the editable form of the work's type |
| EmployeeStore.EmployeeStore.StopEditingSelectedWork | clo-workflows/Scripts/src/store/EmployeeStore.ts:110-114 | the work is no longer editable and is reset to the cached copy, so `selectedWorkView` is then the read-only form of that copy's type |
| EmployeeStore.EmployeeStore.StartEditingSelectedProject | clo-workflows/Scripts/src/store/EmployeeStore.ts:193-196 | the project becomes editable, so `selectedProjectView` is then the editable form of the project's type |
| EmployeeStore.EmployeeStore.StopEditingSelectedProject | clo-workflows/Scripts/src/store/EmployeeStore.ts:197-201 | the project is no longer editable and is reset to the cached copy, so `selectedProjectView` is then the read-only form of that copy's type |
| EmployeeStore.EmployeeStore.ToggleCanEditSelectedProject | clo-workflows/Scripts/src/store/EmployeeStore.ts:178-181 | editability of the project flips |
| EmployeeStore.EmployeeStore.UpdateSelectedWork | clo-workflows/Scripts/src/store/EmployeeStore.ts:71-74 | the field is set to `String(value)`; throws without a selected work |
| EmployeeStore.EmployeeStore.UpdateSelectedProject | clo-workflows/Scripts/src/store/EmployeeStore.ts:143-146 | the same for the project |
| EmployeeStore.EmployeeStore.UpdateSelectedProcess | clo-workflows/Scripts/src/store/EmployeeStore.ts:250-253 | the same for the process |
| EmployeeStore.EmployeeStore.SetProjectWorkPivotSelection | clo-workflows/Scripts/src/store/EmployeeStore.ts:553-566 | records the pivot; "project" resets the work and stops editing it, "work" does the same for the project, and any other value changes nothing else |
| EmployeeStore.EmployeeStore.ToggleClientMode | clo-workflows/Scripts/src/store/EmployeeStore.ts:567-568 | client mode flips |
| EmployeeStore.EmployeeStore.SelectedProcessSubmissionMetadata | clo-workflows/Scripts/src/store/EmployeeStore.ts:239-248 | the submission metadata of the control's field for the selected process; defined exactly when the field has an owning step and a process is selected |
| EmployeeStore.EmployeeStore.ReplaceActiveWork | clo-workflows/Scripts/src/store/EmployeeStore.ts:90 | the work cache gets the work under its Id key, keeping the cache keyed by Id |
| EmployeeStore.EmployeeStore.ReplaceActiveProject | clo-workflows/Scripts/src/store/EmployeeStore.ts:162 | the project cache gets the project under its Id key, keeping the cache keyed by Id |
| EmployeeStore.EmployeeStore.SubmitSelectedWork | clo-workflows/Scripts/src/store/EmployeeStore.ts:78-99 | with no selected work it throws and changes nothing; when the work cannot be submitted it only posts the form-errors message; otherwise it sends the work, and on success caches it under its Id, stops editing and posts success, on failure posts the failure; the lockout ends off; after a success, resetting the work of a process that points to it gives back the submitted work |
| EmployeeStore.EmployeeStore.SubmitSelectedProject | clo-workflows/Scripts/src/store/EmployeeStore.ts:150-171 | the same outcomes for the selected project; after a success, resetting the project of a process that points to it gives back the submitted project |
| EmployeeStore.EmployeeStore.SubmitSelectedProcess | clo-workflows/Scripts/src/store/EmployeeStore.ts:255-288 | when the process cannot be submitted nothing is sent and the caches, stack, selections and lockout are unchanged; a throw also leaves the message unchanged, and an answer of false posts the form-errors message; otherwise the advanced process is sent, and on success it is cached, the stack is reduced to `[Dashboard]`, the selection is cleared and success is posted; on failure the state is kept and the failure is posted |
| EmployeeStore.EmployeeStore.ProcessSubmittedOk | clo-workflows/Scripts/src/store/EmployeeStore.ts:275-281 | the advanced process is cached under its Id, the stack is reduced to Dashboard, the three selections are cleared and success is posted |
| EmployeeStore.EmployeeStore.SubmitNewNote | clo-workflows/Scripts/src/store/EmployeeStore.ts:430-465 | the stamped note is sent when complete; on a created id the note with that id is prepended to the work's or the project's notes; the other list never changes; the message says which outcome; the lockout ends off |
| EmployeeStore.EmployeeStore.UpdateNote | clo-workflows/Scripts/src/store/EmployeeStore.ts:467-489 | the note is sent with the new date; on success it replaces the note with the same Id in its list; the message says which outcome |
| EmployeeStore.EmployeeStore.DeleteNote | clo-workflows/Scripts/src/store/EmployeeStore.ts:491-511 | the delete is sent by Id; on success the corrected removal drops the note with that Id from its own list (the code as written drops the first note, see Findings); the message says which outcome; the lockout ends off |
| EmployeeStore.EmployeeStore.CurrentViewKey | clo-workflows/Scripts/src/store/EmployeeStore.ts:521-524 | the top of the stack, undefined when the stack is empty |
| EmployeeStore.EmployeeStore.ReduceViewHierarchy | clo-workflows/Scripts/src/store/EmployeeStore.ts:526-529 | the stack becomes the prefix ending at the first occurrence of the key, or empty when the key is absent |
| EmployeeStore.EmployeeStore.ExtendViewHierarchy | clo-workflows/Scripts/src/store/EmployeeStore.ts:531-534 | the key is pushed and becomes the current view |
| EmployeeStore.EmployeeStore.BreadcrumbItems | clo-workflows/Scripts/src/store/EmployeeStore.ts:536-551 | the breadcrumbs of the stack for the selected process |
| EmployeeStore.EmployeeStore.SetAsyncPendingLockout | clo-workflows/Scripts/src/store/EmployeeStore.ts:573-577 | the lockout takes the given value |
| EmployeeStore.EmployeeStore.PostMessage | clo-workflows/Scripts/src/store/EmployeeStore.ts:579-589 | the message is shown |
| ClientModel.ProcessCount | clo-workflows/Scripts/src/store/ClientStore.ts:150-152 | the number of processes whose `projectId` is `String(id)`, never more than the list's length |
| ClientModel.ProcessCountAppend | clo-workflows/Scripts/src/store/ClientStore.ts:150-152 | counting over a concatenation adds the counts of the parts |
| ClientModel.StartIndexStep | clo-workflows/Scripts/src/store/ClientStore.ts:141-144 | each group's start index is the previous one plus the previous count |
| ClientModel.SortKeepsCount | clo-workflows/Scripts/src/store/ClientStore.ts:85-88 | sorting keeps every project's process count |
| ClientModel.InsertCount | clo-workflows/Scripts/src/store/ClientStore.ts:87 | inserting one process adds it to its project's count only |
| ClientModel.InsertSorted | clo-workflows/Scripts/src/store/ClientStore.ts:87 | inserting into a sorted list of numeric project ids keeps it sorted |
| ClientModel.SortSorted | clo-workflows/Scripts/src/store/ClientStore.ts:85-88 | when every project id is numeric, the sort orders processes by `Number(projectId)` |
| ClientModel.SortByProjectId | clo-workflows/Scripts/src/store/ClientStore.ts:87 | the sort is a permutation of its input |
| ClientModel.SortByProjectIdSpec | clo-workflows/Scripts/src/store/ClientStore.ts:85-88 | the sorted copy keeps every project's process count, and is ordered by project id when every id is numeric |
| ClientModel.FormValidationDomain | clo-workflows/Scripts/src/store/ClientStore.ts:74-82 | the result has an entry exactly for each field some control of the form reads |
| ClientModel.FormValidationEntry | clo-workflows/Scripts/src/store/ClientStore.ts:74-82 | the entry of a field is the error of the last control that reads it |
| ClientModel.FormValidationDistinct | clo-workflows/Scripts/src/store/ClientStore.ts:74-82 | when controls read distinct fields, each field's entry is its own control's error |
| ClientModel.FindWork | clo-workflows/Scripts/src/store/ClientStore.ts:220 | the first work whose `Id.toString()` equals the id, every work before it having an Id; it throws exactly when a work without an Id is reached before any match, and finds nothing exactly when every work has a non-matching Id |
| ClientModel.FindWorkStopsAtIdless | clo-workflows/Scripts/src/store/ClientStore.ts:220 | `[{}, {Id: 1}].find(...)` for the id "1" throws on the first work instead of finding the second |
| ClientModel.WorkTitle | clo-workflows/Scripts/src/store/ClientStore.ts:220 | the title is found exactly when the search stops at a matching work, every work before it having a non-matching Id; it is then that work's Title, and in every other case reading `.Title` throws |
| ClientModel.ClientObsMap | clo-workflows/Scripts/src/store/ClientStore.ts:253-255 | a fresh record holding only the user's `submitterId` |
| ClientModel.TypesAsOptions | clo-workflows/Scripts/src/store/ClientStore.ts:95-107 | the project and work options are the options of the seven project types and the eight work types |
| ClientStore.ClientStore.constructor | clo-workflows/Scripts/src/store/ClientStore.ts:20-31 | the three draft records hold only the submitter id; nothing is loaded; the view is the fresh view; there is no message and no created work |
| ClientStore.ClientStore.CurrentFormValidation | clo-workflows/Scripts/src/store/ClientStore.ts:72-83 | one entry per field of the current form, the work type's form when a work type is chosen, else the project type's; the entry is the error of the last control reading that field of the draft work |
| ClientStore.ClientStore.ClientProcesses | clo-workflows/Scripts/src/store/ClientStore.ts:85-88 | a sorted copy of the processes: a permutation keeping each project's count, ordered by `Number(projectId)` when every id is numeric; the stored list is only read |
| ClientStore.ClientStore.GetProcessCount | clo-workflows/Scripts/src/store/ClientStore.ts:147-153 | the number of processes of the project, by Id or else `projectId`, counted over the sorted copy; throws exactly when neither is present and there is some process |
| ClientStore.ClientStore.GroupProject | clo-workflows/Scripts/src/store/ClientStore.ts:131-140 | one project's group: key `String(index)`, the Id and Title as strings, name equal to title, the project's process count, the submitter, start index 0; throws exactly when its Id, Title or submitter is missing, or the count's id is missing while there is some process |
| ClientStore.ClientStore.FillStartIndices | clo-workflows/Scripts/src/store/ClientStore.ts:141-144 | each group's start index becomes the sum of the counts before it |
| ClientStore.ClientStore.BuildGroups | clo-workflows/Scripts/src/store/ClientStore.ts:131-140 | one group per project, in order, or a throw exactly when some project cannot be grouped; the processes are only read |
| ClientStore.ClientStore.CleanProjects | clo-workflows/Scripts/src/store/ClientStore.ts:128-145 | on success the projects are the groups with start index 0 first and each next index the previous plus its count; a throw leaves the projects unchanged; the processes are only read |
| ClientStore.ClientStore.SubmitProject | clo-workflows/Scripts/src/store/ClientStore.ts:178-192 | the draft project gets the chosen project type and is sent; the lockout ends off; the message says which outcome |
| ClientStore.ClientStore.SubmitWork | clo-workflows/Scripts/src/store/ClientStore.ts:194-210 | the draft work gets the chosen work type and is sent; on success the created id is kept as `String(id)`; on failure the failure message is posted |
| ClientStore.ClientStore.SubmitProcess | clo-workflows/Scripts/src/store/ClientStore.ts:212-238 | the draft process gets step "Intake", then the title of the new or the chosen work and the work id; it is appended to the processes and sent; a title lookup that throws sends nothing and posts the failure; the modal closes and the lockout ends off |
| ClientStore.ClientStore.ProcessClientRequest | clo-workflows/Scripts/src/store/ClientStore.ts:114-238 | with a project type chosen, the only call is the creation of the draft project stamped with that type; the message is its outcome, and the work, process, list and selected work are untouched. Otherwise the draft process gets step "Intake" and is appended to the list. For a new work, the calls are exactly the creation of the stamped work and then of the process (titled as the draft work); the selected work becomes the created id when one is returned, and the message is the process outcome. For an existing work, the process is titled from the matching work and sent; when no work matches, nothing is sent and the failure message is posted. The view is reset in every case |
| ClientStore.ClientStore.HandleAddNewProcess | clo-workflows/Scripts/src/store/ClientStore.ts:122-126 | the draft process gets the project id and the process modal opens |
| ClientStore.ClientStore.ClearView | clo-workflows/Scripts/src/store/ClientStore.ts:54 | the view is reset to the fresh view |
| ClientStore.ClientStore.ReplaceElementInListById | clo-workflows/Scripts/src/store/ClientStore.ts:240-251 | in place on the array: the first element with the same Id is overwritten and every other slot is kept; found exactly when there was one; the array is unchanged otherwise |

## Left out

- Data service transport: the fetches and writes are not performed. Each command lists its calls and takes their outcomes as parameters, so call timing and concurrent interleavings of the async actions are not captured.
- `EmployeeStore.init`: it has no catch, so a rejected fetch propagates to its caller and the steps after it do not run. This is modelled as that fetch returning nothing (`None`), after which `Init` reports `completed` false and later fields keep their old values.
- `selectActiveProcess` and `selectSearchedProcess`: both are `SelectProcess` with `fromSearch` false or true.
- `clearSelectedRequestElements`: it is the last part of `ProcessSubmittedOk`.
- `removeELementInListById`: modelled as written and corrected. See Findings.
- EmployeeStore.EmployeeStore.DeleteNote: uses the corrected removal (`Notes.RemoveNoteById`), so it does not promise the source's behaviour of dropping the list's first note; that behaviour is `Notes.RemoveNoteAsWritten`, see Findings.
- EmployeeStore.EmployeeStore.SubmitNewNote: the source stamps the caller's note object in place before the call (lines 437-446 of `EmployeeStore.ts`). The model works on note values and prepends a stamped copy, so it does not capture aliasing: a stamp the source writes into an object the caller still holds is not modelled, failed calls included.
- EmployeeStore.EmployeeStore.UpdateNote: the source sets `dateSubmitted` on the caller's note object before the call (line 472). When that object is the list's own entry, the list already shows the new date even when the update fails. The model works on note values, so a failed update leaves the list unchanged; aliasing between the argument and the list entries is not captured.
- `StoreUtils` is not part of this model. `mapRequestElementArrayById` is given fixed semantics: it sets each element under `String(Id)` in list order, so a later duplicate Id overwrites an earlier one (`Caches.MapById`). `replaceElementInListById` for notes is given the semantics of the `ClientStore` method of the same name: the first element with an equal Id is overwritten (`Notes.ReplaceNote`).
- The step loader is not part of this model. `getNextStepName` for the last step is taken to have no successor, so `Processes.Advance` throws there and `submitSelectedProcess` posts the failure message.
- `selectedWorkValidation`, `selectedProjectValidation` and `selectedProcessValidation`: the form validator is a parameter (`validateGroup`), as are the view tables. The loaders that supply them are not part of this model, nor is the step table's loader.
- Validating a missing selection: the model treats it as a throw.
- `touchAllRequiredFormControls`: a call into form code whose source is not part of this model.
- `postMessage` expiry: the timer that clears the message is not modelled; the message just stays set.
- `ClientStore.init`, `fetchClientProcesses`, `fetchClientProjects` and `fetchWorks`: pure fetch-and-assign wrappers over the service. The step text built in `fetchClientProcesses` needs the step loader, which is not part of this model.
- `ClientStore.updateView` and `updateClientStoreMember`: they write a field chosen by a runtime string name, which has no Dafny counterpart.
- `clientProjects`: the getter only returns the `projects` field.
- The `View` class: its reset value is passed in as `freshView`.
- Numbers: `Number()` is modelled for decimal integers with an optional sign, and any other spelling is NaN (`None`). Floating point is not modelled.
- Setting a field to `undefined`: modelled as removing the field, which reads back the same. `Object.keys` would still list it.
- Property names such as `__proto__`, which JavaScript objects treat specially, are not modelled.
- `ClientModel.SortSorted`: JavaScript's `sort` with a comparator that yields NaN has an implementation-defined order. The model fixes one stable insertion order and proves sortedness only when every `projectId` is numeric.
- `Processes.ProjectBriefs`: a process at the first step has no previous step, and `currentStep.orderId - 1` then finds nothing. The model returns `LookupFault` for that case rather than requiring that no such process exists.
- MobX semantics: the stores run on MobX 3. The model assumes three behaviours of that version. An observable map's `values()` returns an array in key-insertion order. Map keys are strings, so cached elements sit under `String(Id)`. An observable array's `sort` returns a sorted copy and leaves the array unchanged, which is why `clientProcesses` and everything built on it only read `processes`.

## Findings

| source | as written | input that shows it | evidently intended | confidence | as-written member | corrected member |
|---|---|---|---|---|---|---|
| clo-workflows/Scripts/src/store/EmployeeStore.ts:598-601 | `findIndex(e => e.Id === e.Id)` compares each note's Id with itself, so it always finds index 0, and the first note is spliced out whatever was deleted | notes `[a (Id 1), b (Id 2)]`, delete `b`: the list becomes `[b]` | remove the note whose Id equals the deleted note's Id | not executed | Notes.RemoveNoteAsWritten (shown by Notes.RemoveAsWrittenKeepsTarget) | Notes.RemoveNoteById |
