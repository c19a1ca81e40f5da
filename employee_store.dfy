/** EmployeeStore: the caches, selection, navigation stack, notes and
    submission commands of the employee side. Each command that calls the
    data service takes the outcome of each call as a parameter (None for a
    rejected call) and returns the calls it made, in order. A command
    returns `threw` when it ends in an exception the store does not catch. */
module EmployeeStore {
  import opened Wrappers
  import opened Elements
  import opened Caches
  import opened Steps
  import opened Forms
  import opened Session
  import opened Notes
  import opened Navigation
  import opened Processes
  import opened Service

  const FixFormErrors := Message("please fix all form errors", Error)
  const WorkSubmitted := Message("work successfully submitted", Success)
  const WorkSubmitFailed := Message("there was a problem submitting your work, try again", Error)
  const ProjectSubmitted := Message("project successfully submitted", Success)
  const ProjectSubmitFailed := Message("there was a problem submitting your project, try again", Error)
  const ProcessSubmitted := Message("process successfully submitted", Success)
  const ProcessSubmitFailed := Message("there was a problem submitting your process, try again", Error)
  const NoteSubmitted := Message("note successfully submitted", Success)
  const NoteSubmitFailed := Message("there was a problem submitting your note, try again", Error)
  const NoteUpdated := Message("note successfully updated", Success)
  const NoteUpdateFailed := Message("there was a problem updating your note, try again", Error)
  const NoteDeleted := Message("note successfully deleted", Success)
  const NoteDeleteFailed := Message("there was a problem deleting your note, try again", Error)

  /** A loaded cache is a well-formed ordered map keyed by element Id. */
  ghost predicate WellKeyed(cache: Option<ObsMap>)
  {
    cache.Some? ==> cache.value.Valid() && KeyedById(cache.value)
  }

  class EmployeeStore {
    /** The step table, the two view loaders and the group validator. */
    const steps: StepTable
    const viewOf: ViewTable
    const readonlyViewOf: ViewTable
    const validateGroup: GroupValidator

    var activeProcesses: Option<ObsMap>
    var activeWorks: Option<ObsMap>
    var activeProjects: Option<ObsMap>
    var searchedProcesses: Option<ObsMap>
    var searchedWorks: Option<ObsMap>
    var searchedProjects: Option<ObsMap>
    var selectedProcess: Option<Element>
    var selectedWork: Option<Element>
    var selectedProject: Option<Element>
    var canEditSelectedWork: bool
    var canEditSelectedProject: bool
    var selectedWorkNotes: seq<Note>
    var selectedProjectNotes: seq<Note>
    var focusStep: Option<Step>
    var viewHierarchy: seq<ViewKey>
    var projectWorkPivotSelection: string
    var clientMode: bool
    var asyncPendingLockout: bool
    var message: Option<Message>

    ghost predicate Valid()
      reads this`activeProcesses, this`activeWorks, this`activeProjects
      reads this`searchedProcesses, this`searchedWorks, this`searchedProjects
    {
      && WellKeyed(activeProcesses) && WellKeyed(activeWorks) && WellKeyed(activeProjects)
      && WellKeyed(searchedProcesses) && WellKeyed(searchedWorks) && WellKeyed(searchedProjects)
    }

    constructor(steps: StepTable, viewOf: ViewTable, readonlyViewOf: ViewTable, validateGroup: GroupValidator)
      ensures Valid()
      ensures this.steps == steps && this.viewOf == viewOf && this.readonlyViewOf == readonlyViewOf
      ensures this.validateGroup == validateGroup
      ensures activeProcesses.None? && activeWorks.None? && activeProjects.None?
      ensures searchedProcesses.None? && searchedWorks.None? && searchedProjects.None?
      ensures selectedProcess.None? && selectedWork.None? && selectedProject.None?
      ensures !canEditSelectedWork && !canEditSelectedProject
      ensures selectedWorkNotes == [] && selectedProjectNotes == []
      ensures focusStep.None? && viewHierarchy == [Dashboard] && projectWorkPivotSelection == "work"
      ensures !clientMode && !asyncPendingLockout && message.None?
    {
      this.steps := steps;
      this.viewOf := viewOf;
      this.readonlyViewOf := readonlyViewOf;
      this.validateGroup := validateGroup;
      activeProcesses, activeWorks, activeProjects := None, None, None;
      searchedProcesses, searchedWorks, searchedProjects := None, None, None;
      selectedProcess, selectedWork, selectedProject := None, None, None;
      canEditSelectedWork, canEditSelectedProject := false, false;
      selectedWorkNotes, selectedProjectNotes := [], [];
      focusStep := None;
      viewHierarchy := [Dashboard];
      projectWorkPivotSelection := "work";
      clientMode := false;
      asyncPendingLockout := false;
      message := None;
    }

    // -------------------------------------------------------------------------
    // Loading

    /** `this.activeProcesses = StoreUtils.mapRequestElementArrayById(list)`. */
    method CacheActiveProcesses(list: seq<Element>)
      requires Valid()
      modifies this`activeProcesses
      ensures Valid() && activeProcesses == Some(MapById(list))
    {
      activeProcesses := Some(MapById(list));
    }

    method CacheActiveProjects(list: seq<Element>)
      requires Valid()
      modifies this`activeProjects
      ensures Valid() && activeProjects == Some(MapById(list))
    {
      activeProjects := Some(MapById(list));
    }

    method CacheActiveWorks(list: seq<Element>)
      requires Valid()
      modifies this`activeWorks
      ensures Valid() && activeWorks == Some(MapById(list))
    {
      activeWorks := Some(MapById(list));
    }

    /** The last step of init: empty selections and no pending request. */
    method ClearSelectionForInit()
      modifies this`selectedProcess, this`selectedProject, this`selectedWork, this`asyncPendingLockout
      ensures selectedProcess == Some(map[]) && selectedWork == Some(map[]) && selectedProject == Some(map[])
      ensures !asyncPendingLockout
    {
      selectedProject, selectedWork, selectedProcess := Some(map[]), Some(map[]), Some(map[]);
      asyncPendingLockout := false;
    }

    /** init: fetch the employee's active processes, then their projects, then
        their works, caching each list as it arrives; a rejected fetch stops
        the command with the caches loaded so far. */
    method Init(user: User, processes: Option<seq<Element>>, projects: Option<seq<Element>>, works: Option<seq<Element>>)
      returns (completed: bool, calls: seq<Call>)
      requires Valid()
      modifies this`activeProcesses, this`activeProjects, this`activeWorks
      modifies this`selectedProcess, this`selectedProject, this`selectedWork, this`asyncPendingLockout
      ensures Valid()
      ensures completed <==> processes.Some? && projects.Some? && works.Some?
      ensures |calls| == (if processes.None? then 1 else if projects.None? then 2 else 3)
      ensures calls[0] == FetchEmployeeActiveProcesses(user)
      ensures processes.Some? ==> calls[1] == FetchRequestElementsById(NumbersOf(processes.value, "projectId"), Projects)
      ensures processes.Some? && projects.Some? ==>
        calls[2] == FetchRequestElementsById(NumbersOf(processes.value, "workId"), Works)
      ensures activeProcesses == if processes.Some? then Some(MapById(processes.value)) else old(activeProcesses)
      ensures activeProjects ==
        if processes.Some? && projects.Some? then Some(MapById(projects.value)) else old(activeProjects)
      ensures activeWorks == if completed then Some(MapById(works.value)) else old(activeWorks)
      ensures completed ==>
        && selectedProcess == Some(map[]) && selectedWork == Some(map[]) && selectedProject == Some(map[])
        && !asyncPendingLockout
      ensures !completed ==>
        && selectedProcess == old(selectedProcess) && selectedWork == old(selectedWork)
        && selectedProject == old(selectedProject) && asyncPendingLockout == old(asyncPendingLockout)
    {
      completed := false;
      var fetchProcesses := FetchEmployeeActiveProcesses(user);
      if processes.None? {
        calls := [fetchProcesses];
        return;
      }
      var list := processes.value;
      var fetchProjects := FetchRequestElementsById(NumbersOf(list, "projectId"), Projects);
      CacheActiveProcesses(list);
      if projects.None? {
        calls := [fetchProcesses, fetchProjects];
        return;
      }
      CacheActiveProjects(projects.value);
      calls := [fetchProcesses, fetchProjects, FetchRequestElementsById(NumbersOf(list, "workId"), Works)];
      if works.None? {
        return;
      }
      CacheActiveWorks(works.value);
      ClearSelectionForInit();
      completed := true;
    }

    // -------------------------------------------------------------------------
    // Views and validation of the selection

    function SelectedWorkView(): (r: Try<Form>)
      reads this
      ensures r.Ok? <==> selectedWork.Some?
      ensures r.Ok? && canEditSelectedWork ==> r.value == viewOf(TypeName(selectedWork.value))
      ensures r.Ok? && !canEditSelectedWork ==> r.value == readonlyViewOf(TypeName(selectedWork.value))
    {
      match selectedWork
      case None => Throws
      case Some(w) => Ok(if canEditSelectedWork then viewOf(TypeName(w)) else readonlyViewOf(TypeName(w)))
    }

    function SelectedProjectView(): (r: Try<Form>)
      reads this
      ensures r.Ok? <==> selectedProject.Some?
      ensures r.Ok? && canEditSelectedProject ==> r.value == viewOf(TypeName(selectedProject.value))
      ensures r.Ok? && !canEditSelectedProject ==> r.value == readonlyViewOf(TypeName(selectedProject.value))
    {
      match selectedProject
      case None => Throws
      case Some(p) => Ok(if canEditSelectedProject then viewOf(TypeName(p)) else readonlyViewOf(TypeName(p)))
    }

    predicate IsFocusStep()
      reads this
    {
      focusStep.Some?
    }

    predicate IsFocusSearch()
      reads this
    {
      searchedProcesses.Some? && searchedProjects.Some? && searchedWorks.Some?
    }

    /** Only a process reached from the focused step can be submitted. */
    predicate IsSelectedRequestActive()
      reads this
    {
      selectedProcess.Some? && IsFocusStep()
    }

    /** The focused step's view, else the "Complete" view during a search. */
    function SelectedProcessView(): (r: Try<Form>)
      reads this
      ensures r.Ok? <==> IsFocusStep() || IsFocusSearch()
      ensures IsFocusStep() ==> r == Ok(viewOf(Some(focusStep.value.view)))
      ensures !IsFocusStep() && IsFocusSearch() ==> r == Ok(viewOf(Some("Complete")))
    {
      if IsFocusStep() then Ok(viewOf(Some(focusStep.value.view)))
      else if IsFocusSearch() then Ok(viewOf(Some("Complete")))
      else Throws
    }

    /** canSubmitSelectedWork; the validation is only read when no request is pending. */
    function CanSubmitSelectedWork(): (r: Try<bool>)
      reads this
      ensures asyncPendingLockout ==> r == Ok(false)
      ensures r.Throws? <==> !asyncPendingLockout && selectedWork.None?
      ensures r == Ok(true) <==>
        && !asyncPendingLockout && selectedWork.Some?
        && NoErrors(validateGroup(SelectedWorkView().value, selectedWork.value))
        && IsSelectedRequestActive()
    {
      if asyncPendingLockout then Ok(false)
      else match SelectedWorkView()
        case Throws => Throws
        case Ok(form) => Ok(NoErrors(validateGroup(form, selectedWork.value)) && IsSelectedRequestActive())
    }

    function CanSubmitSelectedProject(): (r: Try<bool>)
      reads this
      ensures asyncPendingLockout ==> r == Ok(false)
      ensures r.Throws? <==> !asyncPendingLockout && selectedProject.None?
      ensures r == Ok(true) <==>
        && !asyncPendingLockout && selectedProject.Some?
        && NoErrors(validateGroup(SelectedProjectView().value, selectedProject.value))
        && IsSelectedRequestActive()
    {
      if asyncPendingLockout then Ok(false)
      else match SelectedProjectView()
        case Throws => Throws
        case Ok(form) => Ok(NoErrors(validateGroup(form, selectedProject.value)) && IsSelectedRequestActive())
    }

    /** canSubmitSelectedProcess; validating against an absent selection throws. */
    function CanSubmitSelectedProcess(): (r: Try<bool>)
      reads this
      ensures asyncPendingLockout ==> r == Ok(false)
      ensures r.Throws? <==> !asyncPendingLockout && (SelectedProcessView().Throws? || selectedProcess.None?)
      ensures r == Ok(true) <==>
        && !asyncPendingLockout && IsFocusStep() && selectedProcess.Some?
        && NoErrors(validateGroup(viewOf(Some(focusStep.value.view)), selectedProcess.value))
    {
      if asyncPendingLockout then Ok(false)
      else match (SelectedProcessView(), selectedProcess)
        case (Ok(form), Some(p)) => Ok(NoErrors(validateGroup(form, p)) && IsSelectedRequestActive())
        case _ => Throws
    }

    // -------------------------------------------------------------------------
    // Derived lists

    /** processCountsByStep over the active cache. */
    function ProcessCountsByStep(): (r: Try<map<string, nat>>)
      reads this
      requires Valid()
      ensures r.Ok? <==> activeProcesses.Some?
      ensures r.Ok? ==> forall s ::
        s in r.value <==> exists i :: 0 <= i < |activeProcesses.value.keys| && StepKey(activeProcesses.value.Values()[i]) == s
      ensures r.Ok? ==> forall s :: s in r.value ==> r.value[s] == CountAt(activeProcesses.value.Values(), s)
      ensures r.Ok? ==> MapSum(r.value) == |activeProcesses.value.keys|
    {
      match activeProcesses
      case None => Throws
      case Some(active) =>
        var vs := active.Values();
        CountsByStepDomain(vs);
        CountsByStepSum(vs);
        assert forall s :: s in CountsByStep(vs) ==> CountsByStep(vs)[s] == CountAt(vs, s) by {
          forall s | s in CountsByStep(vs) ensures CountsByStep(vs)[s] == CountAt(vs, s) {
            CountsByStepCount(vs, s);
          }
        }
        Ok(CountsByStep(vs))
    }

    /** selectedStepProcesses: None when no step is focused; reading an unloaded
        active cache throws. */
    function SelectedStepProcesses(): (r: Try<Option<ObsMap>>)
      reads this
      requires Valid()
      ensures r.Throws? <==> focusStep.Some? && activeProcesses.None?
      ensures r.Ok? ==> (r.value.Some? <==> focusStep.Some?)
      ensures r.Ok? && r.value.Some? ==>
        && r.value.value.Valid() && KeyedById(r.value.value)
        && r.value.value.Values() == AtStepFilter(activeProcesses.value.Values(), focusStep.value.name)
        && forall k :: r.value.value.Get(k) ==
             (if k in activeProcesses.value.entries && AtStep(activeProcesses.value.entries[k], focusStep.value.name)
              then Some(activeProcesses.value.entries[k]) else None)
    {
      match focusStep
      case None => Ok(None)
      case Some(step) =>
        match activeProcesses
        case None => Throws
        case Some(active) =>
          StepProcessesSpec(active, step.name);
          Ok(Some(StepProcesses(active, step.name)))
    }

    function SelectedStepProcessBriefs(): (r: Try<Projection>)
      reads this
      requires Valid()
      ensures r.Throws? <==> SelectedStepProcesses().Throws?
      ensures r.Ok? ==> (r.value.NotLoaded? <==> focusStep.None? || activeWorks.None? || activeProjects.None?)
      ensures r.Ok? && r.value.Ready? ==> |r.value.briefs| == |SelectedStepProcesses().value.value.keys|
    {
      match SelectedStepProcesses()
      case Throws => Throws
      case Ok(processes) => Ok(ProjectBriefs(processes, activeWorks, activeProjects, steps))
    }

    function SearchedProcessBriefs(): (r: Projection)
      reads this
      requires Valid()
      ensures r.NotLoaded? <==> !IsFocusSearch()
      ensures r.Ready? ==> |r.briefs| == |searchedProcesses.value.keys|
    {
      ProjectBriefs(searchedProcesses, searchedWorks, searchedProjects, steps)
    }

    // -------------------------------------------------------------------------
    // Focus and search

    method UnfocusSearch()
      modifies this`searchedProcesses, this`searchedProjects, this`searchedWorks
      ensures Valid() <==> old(WellKeyed(activeProcesses) && WellKeyed(activeWorks) && WellKeyed(activeProjects))
      ensures !IsFocusSearch()
      ensures searchedProcesses.None? && searchedProjects.None? && searchedWorks.None?
      ensures SelectedProcessView().Ok? <==> IsFocusStep()
    {
      searchedProcesses, searchedProjects, searchedWorks := None, None, None;
    }

    /** selectFocusStep: leaving a search, focus a step. */
    method SelectFocusStep(step: Step)
      modifies this`searchedProcesses, this`searchedProjects, this`searchedWorks, this`focusStep
      ensures Valid() <==> old(WellKeyed(activeProcesses) && WellKeyed(activeWorks) && WellKeyed(activeProjects))
      ensures focusStep == Some(step) && IsFocusStep() && !IsFocusSearch()
      ensures SelectedProcessView() == Ok(viewOf(Some(step.view)))
    {
      UnfocusSearch();
      focusStep := Some(step);
    }

    /** The last step of searchProcesses: drop the focused step and cache the
        three result lists. */
    method CacheSearchResults(processes: seq<Element>, works: seq<Element>, projects: seq<Element>)
      requires Valid()
      modifies this`focusStep, this`searchedProcesses, this`searchedWorks, this`searchedProjects
      ensures Valid() && focusStep.None?
      ensures searchedProcesses == Some(MapById(processes))
      ensures searchedWorks == Some(MapById(works))
      ensures searchedProjects == Some(MapById(projects))
      ensures SelectedProcessView() == Ok(viewOf(Some("Complete")))
    {
      var p, w, j := MapById(processes), MapById(works), MapById(projects);
      assert WellKeyed(Some(p)) && WellKeyed(Some(w)) && WellKeyed(Some(j));
      focusStep := None;
      searchedProcesses, searchedWorks, searchedProjects := Some(p), Some(w), Some(j);
    }

    /** searchProcesses: search by title, fetch the works and projects of the
        hits, then drop the focused step and cache the three result lists
        together. A rejected call leaves the store as it was. */
    method SearchProcesses(term: string, processes: Option<seq<Element>>, works: Option<seq<Element>>, projects: Option<seq<Element>>)
      returns (completed: bool, calls: seq<Call>)
      requires Valid()
      modifies this`focusStep, this`searchedProcesses, this`searchedWorks, this`searchedProjects
      ensures Valid()
      ensures completed <==> processes.Some? && works.Some? && projects.Some?
      ensures |calls| == (if processes.None? then 1 else if works.None? then 2 else 3)
      ensures calls[0] == SearchProcessesByTitle(term)
      ensures processes.Some? ==> calls[1] == FetchRequestElementsById(NumbersOf(processes.value, "workId"), Works)
      ensures processes.Some? && works.Some? ==>
        calls[2] == FetchRequestElementsById(NumbersOf(processes.value, "projectId"), Projects)
      ensures completed ==>
        && focusStep.None? && IsFocusSearch()
        && searchedProcesses == Some(MapById(processes.value))
        && searchedWorks == Some(MapById(works.value))
        && searchedProjects == Some(MapById(projects.value))
      ensures !completed ==>
        && focusStep == old(focusStep) && searchedProcesses == old(searchedProcesses)
        && searchedWorks == old(searchedWorks) && searchedProjects == old(searchedProjects)
    {
      completed := false;
      calls := [SearchProcessesByTitle(term)];
      if processes.None? {
        return;
      }
      calls := calls + [FetchRequestElementsById(NumbersOf(processes.value, "workId"), Works)];
      if works.None? {
        return;
      }
      calls := calls + [FetchRequestElementsById(NumbersOf(processes.value, "projectId"), Projects)];
      if projects.None? {
        return;
      }
      CacheSearchResults(processes.value, works.value, projects.value);
      completed := true;
    }

    // -------------------------------------------------------------------------
    // Selecting a process

    /** selectActiveProcess (fromSearch false) and selectSearchedProcess
        (fromSearch true): copy the process the brief names, open the detail
        view, copy its work and project, then load their employee notes, which
        are stored only when both fetches succeed. Reading an unloaded cache
        throws, keeping what was assigned before it. */
    method SelectProcess(brief: Brief, fromSearch: bool, workNotes: Option<seq<Note>>, projectNotes: Option<seq<Note>>)
      returns (threw: bool, calls: seq<Call>)
      modifies this`selectedProcess, this`viewHierarchy, this`selectedWork, this`selectedProject
      modifies this`selectedWorkNotes, this`selectedProjectNotes
      ensures
        var processes := if fromSearch then old(searchedProcesses) else old(activeProcesses);
        var works := if fromSearch then old(searchedWorks) else old(activeWorks);
        var projects := if fromSearch then old(searchedProjects) else old(activeProjects);
        && (processes.None? ==>
              threw && calls == [] && selectedProcess == old(selectedProcess) && viewHierarchy == old(viewHierarchy))
        && (processes.Some? ==>
              && selectedProcess == Some(CopyOf(processes.value.Get(OptToString(brief.id))))
              && viewHierarchy == Extend(old(viewHierarchy), ProcessDetail))
        && (processes.None? || works.None? ==> selectedWork == old(selectedWork))
        && (processes.Some? && works.Some? ==>
              selectedWork == Some(CopyOf(works.value.Get(OptToString(Get(selectedProcess.value, "workId"))))))
        && (processes.None? || works.None? || projects.None? ==>
              && threw && calls == [] && selectedProject == old(selectedProject))
        && (processes.Some? && works.Some? && projects.Some? ==>
              && selectedProject == Some(CopyOf(projects.value.Get(OptToString(Get(selectedProcess.value, "projectId")))))
              && |calls| == (if workNotes.None? then 1 else 2)
              && calls[0] == FetchNotes(WorkSource, EmployeeScope, Get(selectedWork.value, "Id"), Get(selectedProcess.value, "submitterId"))
              && (workNotes.Some? ==>
                    calls[1] == FetchNotes(ProjectSource, EmployeeScope, Get(selectedProject.value, "Id"), Get(selectedProcess.value, "submitterId")))
              && (threw <==> workNotes.None? || projectNotes.None?))
        && (!threw ==> selectedWorkNotes == workNotes.value && selectedProjectNotes == projectNotes.value)
        && (threw ==> selectedWorkNotes == old(selectedWorkNotes) && selectedProjectNotes == old(selectedProjectNotes))
    {
      var processes := if fromSearch then searchedProcesses else activeProcesses;
      var works := if fromSearch then searchedWorks else activeWorks;
      var projects := if fromSearch then searchedProjects else activeProjects;
      threw, calls := true, [];
      if processes.None? {
        return;
      }
      var process := CopyOf(processes.value.Get(OptToString(brief.id)));
      selectedProcess := Some(process);
      viewHierarchy := Extend(viewHierarchy, ProcessDetail);
      if works.None? {
        return;
      }
      var work := CopyOf(works.value.Get(OptToString(Get(process, "workId"))));
      selectedWork := Some(work);
      if projects.None? {
        return;
      }
      var project := CopyOf(projects.value.Get(OptToString(Get(process, "projectId"))));
      selectedProject := Some(project);
      calls := [FetchNotes(WorkSource, EmployeeScope, Get(work, "Id"), Get(process, "submitterId"))];
      if workNotes.None? {
        return;
      }
      calls := calls + [FetchNotes(ProjectSource, EmployeeScope, Get(project, "Id"), Get(process, "submitterId"))];
      if projectNotes.None? {
        return;
      }
      selectedWorkNotes, selectedProjectNotes := workNotes.value, projectNotes.value;
      threw := false;
    }

    // -------------------------------------------------------------------------
    // Editing the selection

    /** The selected work's original copy, re-read from the active cache. */
    function RestoredWork(): (r: Try<Element>)
      reads this
      ensures r.Ok? <==> activeWorks.Some? && selectedProcess.Some?
      ensures r.Ok? ==> r.value == CopyOf(activeWorks.value.Get(OptToString(Get(selectedProcess.value, "workId"))))
    {
      match (activeWorks, selectedProcess)
      case (Some(works), Some(p)) => Ok(CopyOf(works.Get(OptToString(Get(p, "workId")))))
      case _ => Throws
    }

    function RestoredProject(): (r: Try<Element>)
      reads this
      ensures r.Ok? <==> activeProjects.Some? && selectedProcess.Some?
      ensures r.Ok? ==> r.value == CopyOf(activeProjects.value.Get(OptToString(Get(selectedProcess.value, "projectId"))))
    {
      match (activeProjects, selectedProcess)
      case (Some(projects), Some(p)) => Ok(CopyOf(projects.Get(OptToString(Get(p, "projectId")))))
      case _ => Throws
    }

    method ResetSelectedWork() returns (threw: bool)
      modifies this`selectedWork
      ensures threw <==> old(RestoredWork()).Throws?
      ensures selectedWork == if threw then old(selectedWork) else Some(old(RestoredWork()).value)
    {
      var restored := RestoredWork();
      threw := restored.Throws?;
      if !threw {
        selectedWork := Some(restored.value);
      }
    }

    method ResetSelectedProject() returns (threw: bool)
      modifies this`selectedProject
      ensures threw <==> old(RestoredProject()).Throws?
      ensures selectedProject == if threw then old(selectedProject) else Some(old(RestoredProject()).value)
    {
      var restored := RestoredProject();
      threw := restored.Throws?;
      if !threw {
        selectedProject := Some(restored.value);
      }
    }

    method StartEditingSelectedWork()
      modifies this`canEditSelectedWork
      ensures canEditSelectedWork
      ensures selectedWork.Some? ==> SelectedWorkView() == Ok(viewOf(TypeName(selectedWork.value)))
    {
      canEditSelectedWork := true;
    }

    /** stopEditingSelectedWork: leave edit mode and discard the edits. */
    method StopEditingSelectedWork() returns (threw: bool)
      modifies this`canEditSelectedWork, this`selectedWork
      ensures !canEditSelectedWork
      ensures threw <==> old(RestoredWork()).Throws?
      ensures selectedWork == if threw then old(selectedWork) else Some(old(RestoredWork()).value)
      ensures !threw ==> SelectedWorkView() == Ok(readonlyViewOf(TypeName(old(RestoredWork()).value)))
    {
      canEditSelectedWork := false;
      threw := ResetSelectedWork();
    }

    method StartEditingSelectedProject()
      modifies this`canEditSelectedProject
      ensures canEditSelectedProject
      ensures selectedProject.Some? ==> SelectedProjectView() == Ok(viewOf(TypeName(selectedProject.value)))
    {
      canEditSelectedProject := true;
    }

    method StopEditingSelectedProject() returns (threw: bool)
      modifies this`canEditSelectedProject, this`selectedProject
      ensures !canEditSelectedProject
      ensures threw <==> old(RestoredProject()).Throws?
      ensures selectedProject == if threw then old(selectedProject) else Some(old(RestoredProject()).value)
      ensures !threw ==> SelectedProjectView() == Ok(readonlyViewOf(TypeName(old(RestoredProject()).value)))
    {
      canEditSelectedProject := false;
      threw := ResetSelectedProject();
    }

    method ToggleCanEditSelectedProject()
      modifies this`canEditSelectedProject
      ensures canEditSelectedProject == !old(canEditSelectedProject)
    {
      canEditSelectedProject := !canEditSelectedProject;
    }

    /** updateSelectedWork: store `String(newVal)` under the field. */
    method UpdateSelectedWork(fieldName: string, newVal: Value) returns (threw: bool)
      modifies this`selectedWork
      ensures threw <==> old(selectedWork).None?
      ensures !threw ==> selectedWork == Some(old(selectedWork).value[fieldName := Str(ValueToString(newVal))])
      ensures threw ==> selectedWork == old(selectedWork)
    {
      threw := selectedWork.None?;
      if !threw {
        selectedWork := Some(selectedWork.value[fieldName := Str(ValueToString(newVal))]);
      }
    }

    method UpdateSelectedProject(fieldName: string, newVal: Value) returns (threw: bool)
      modifies this`selectedProject
      ensures threw <==> old(selectedProject).None?
      ensures !threw ==> selectedProject == Some(old(selectedProject).value[fieldName := Str(ValueToString(newVal))])
      ensures threw ==> selectedProject == old(selectedProject)
    {
      threw := selectedProject.None?;
      if !threw {
        selectedProject := Some(selectedProject.value[fieldName := Str(ValueToString(newVal))]);
      }
    }

    method UpdateSelectedProcess(fieldName: string, newVal: Value) returns (threw: bool)
      modifies this`selectedProcess
      ensures threw <==> old(selectedProcess).None?
      ensures !threw ==> selectedProcess == Some(old(selectedProcess).value[fieldName := Str(ValueToString(newVal))])
      ensures threw ==> selectedProcess == old(selectedProcess)
    {
      threw := selectedProcess.None?;
      if !threw {
        selectedProcess := Some(selectedProcess.value[fieldName := Str(ValueToString(newVal))]);
      }
    }

    /** setProjectWorkPivotSelection: switching to one pane discards the
        unsaved edits of the other and leaves its edit mode. */
    method SetProjectWorkPivotSelection(selection: string) returns (threw: bool)
      modifies this`projectWorkPivotSelection, this`selectedWork, this`canEditSelectedWork
      modifies this`selectedProject, this`canEditSelectedProject
      ensures projectWorkPivotSelection == selection
      ensures selection == "project" ==>
        && (threw <==> old(RestoredWork()).Throws?)
        && selectedWork == (if threw then old(selectedWork) else Some(old(RestoredWork()).value))
        && canEditSelectedWork == (if threw then old(canEditSelectedWork) else false)
        && selectedProject == old(selectedProject) && canEditSelectedProject == old(canEditSelectedProject)
      ensures selection == "work" ==>
        && (threw <==> old(RestoredProject()).Throws?)
        && selectedProject == (if threw then old(selectedProject) else Some(old(RestoredProject()).value))
        && canEditSelectedProject == (if threw then old(canEditSelectedProject) else false)
        && selectedWork == old(selectedWork) && canEditSelectedWork == old(canEditSelectedWork)
      ensures selection != "project" && selection != "work" ==>
        && !threw
        && selectedWork == old(selectedWork) && canEditSelectedWork == old(canEditSelectedWork)
        && selectedProject == old(selectedProject) && canEditSelectedProject == old(canEditSelectedProject)
    {
      projectWorkPivotSelection := selection;
      threw := false;
      if selection == "project" {
        threw := ResetSelectedWork();
        if !threw {
          canEditSelectedWork := false;
        }
      } else if selection == "work" {
        threw := ResetSelectedProject();
        if !threw {
          canEditSelectedProject := false;
        }
      }
    }

    method ToggleClientMode()
      modifies this`clientMode
      ensures clientMode == !old(clientMode)
    {
      clientMode := !clientMode;
    }

    function SelectedProcessSubmissionMetadata(control: FormControl): (r: Try<Option<string>>)
      reads this
      ensures r.Ok? <==> StepForFieldName(steps, control.dataRef).Some? && selectedProcess.Some?
    {
      SubmissionMetadata(steps, control.dataRef, selectedProcess)
    }

    // -------------------------------------------------------------------------
    // Submitting the selection

    /** Point-replace in the active work cache, keyed by the element's own Id. */
    method ReplaceActiveWork(e: Element)
      requires Valid() && activeWorks.Some?
      modifies this`activeWorks
      ensures Valid()
      ensures activeWorks == Some(old(activeWorks).value.Set(IdKey(e), e))
      ensures activeWorks.value.Get(IdKey(e)) == Some(e)
    {
      ReplaceKeepsKeyed(activeWorks.value, e);
      activeWorks := Some(activeWorks.value.Set(IdKey(e), e));
    }

    /** Point-replace in the active project cache, keyed by the element's own Id. */
    method ReplaceActiveProject(e: Element)
      requires Valid() && activeProjects.Some?
      modifies this`activeProjects
      ensures Valid()
      ensures activeProjects == Some(old(activeProjects).value.Set(IdKey(e), e))
      ensures activeProjects.value.Get(IdKey(e)) == Some(e)
    {
      ReplaceKeepsKeyed(activeProjects.value, e);
      activeProjects := Some(activeProjects.value.Set(IdKey(e), e));
    }

    /** submitSelectedWork. */
    method SubmitSelectedWork(serviceOk: bool) returns (threw: bool, calls: seq<Call>)
      requires Valid()
      modifies this`activeWorks, this`message, this`asyncPendingLockout, this`canEditSelectedWork
      ensures Valid()
      ensures threw <==> old(selectedWork).None?
      ensures threw ==>
        && calls == [] && activeWorks == old(activeWorks) && message == old(message)
        && asyncPendingLockout == old(asyncPendingLockout) && canEditSelectedWork == old(canEditSelectedWork)
      ensures !threw && old(CanSubmitSelectedWork()) == Ok(false) ==>
        && calls == [] && message == Some(FixFormErrors) && activeWorks == old(activeWorks)
        && asyncPendingLockout == old(asyncPendingLockout) && canEditSelectedWork == old(canEditSelectedWork)
      ensures old(CanSubmitSelectedWork()) == Ok(true) ==>
        var work := old(selectedWork).value;
        && calls == [UpdateRequestElement(work, Works)]
        && !asyncPendingLockout
        && (serviceOk && old(activeWorks).Some? ==>
              && activeWorks == Some(old(activeWorks).value.Set(IdKey(work), work))
              && activeWorks.value.Get(IdKey(work)) == Some(work)
              && message == Some(WorkSubmitted) && !canEditSelectedWork
              && (selectedProcess.Some? && OptToString(Get(selectedProcess.value, "workId")) == IdKey(work) ==>
                    RestoredWork() == Ok(work)))
        && (!serviceOk || old(activeWorks).None? ==>
              && activeWorks == old(activeWorks) && message == Some(WorkSubmitFailed)
              && canEditSelectedWork == old(canEditSelectedWork))
    {
      calls := [];
      threw := SelectedWorkView().Throws?;
      if threw {
        return;
      }
      var can := CanSubmitSelectedWork();
      if !can.value {
        message := Some(FixFormErrors);
        return;
      }
      asyncPendingLockout := true;
      var work := selectedWork.value;
      calls := [UpdateRequestElement(work, Works)];
      if serviceOk && activeWorks.Some? {
        ReplaceActiveWork(work);
        message := Some(WorkSubmitted);
        canEditSelectedWork := false;
      } else {
        message := Some(WorkSubmitFailed);
      }
      asyncPendingLockout := false;
    }

    /** submitSelectedProject. */
    method SubmitSelectedProject(serviceOk: bool) returns (threw: bool, calls: seq<Call>)
      requires Valid()
      modifies this`activeProjects, this`message, this`asyncPendingLockout, this`canEditSelectedProject
      ensures Valid()
      ensures threw <==> old(selectedProject).None?
      ensures threw ==>
        && calls == [] && activeProjects == old(activeProjects) && message == old(message)
        && asyncPendingLockout == old(asyncPendingLockout) && canEditSelectedProject == old(canEditSelectedProject)
      ensures !threw && old(CanSubmitSelectedProject()) == Ok(false) ==>
        && calls == [] && message == Some(FixFormErrors) && activeProjects == old(activeProjects)
        && asyncPendingLockout == old(asyncPendingLockout) && canEditSelectedProject == old(canEditSelectedProject)
      ensures old(CanSubmitSelectedProject()) == Ok(true) ==>
        var project := old(selectedProject).value;
        && calls == [UpdateRequestElement(project, Projects)]
        && !asyncPendingLockout
        && (serviceOk && old(activeProjects).Some? ==>
              && activeProjects == Some(old(activeProjects).value.Set(IdKey(project), project))
              && activeProjects.value.Get(IdKey(project)) == Some(project)
              && message == Some(ProjectSubmitted) && !canEditSelectedProject
              && (selectedProcess.Some? && OptToString(Get(selectedProcess.value, "projectId")) == IdKey(project) ==>
                    RestoredProject() == Ok(project)))
        && (!serviceOk || old(activeProjects).None? ==>
              && activeProjects == old(activeProjects) && message == Some(ProjectSubmitFailed)
              && canEditSelectedProject == old(canEditSelectedProject))
    {
      calls := [];
      threw := SelectedProjectView().Throws?;
      if threw {
        return;
      }
      var can := CanSubmitSelectedProject();
      if !can.value {
        message := Some(FixFormErrors);
        return;
      }
      asyncPendingLockout := true;
      var project := selectedProject.value;
      calls := [UpdateRequestElement(project, Projects)];
      if serviceOk && activeProjects.Some? {
        ReplaceActiveProject(project);
        message := Some(ProjectSubmitted);
        canEditSelectedProject := false;
      } else {
        message := Some(ProjectSubmitFailed);
      }
      asyncPendingLockout := false;
    }

    /** submitSelectedProcess: advance the selected process to the next step,
        stamped with the submitter and date of the step just done; on success
        replace it in the active cache, return to the dashboard and clear the
        selection. */
    method SubmitSelectedProcess(user: User, now: string, serviceOk: bool) returns (threw: bool, calls: seq<Call>)
      requires Valid()
      modifies this`activeProcesses, this`viewHierarchy, this`selectedProcess, this`selectedWork, this`selectedProject
      modifies this`message, this`asyncPendingLockout
      ensures Valid()
      ensures threw <==> old(SelectedProcessView()).Throws? || old(CanSubmitSelectedProcess()).Throws?
      ensures old(CanSubmitSelectedProcess()) != Ok(true) ==>
        && calls == [] && activeProcesses == old(activeProcesses) && viewHierarchy == old(viewHierarchy)
        && selectedProcess == old(selectedProcess) && asyncPendingLockout == old(asyncPendingLockout)
        && selectedWork == old(selectedWork) && selectedProject == old(selectedProject)
      ensures threw ==> message == old(message)
      ensures !threw && old(CanSubmitSelectedProcess()) == Ok(false) ==> message == Some(FixFormErrors)
      ensures old(CanSubmitSelectedProcess()) == Ok(true) ==>
        var advanced := Advance(old(selectedProcess).value, steps, now, user.name);
        && !threw && !asyncPendingLockout
        && calls == (if advanced.Ok? then [UpdateRequestElement(advanced.value, Processes)] else [])
        && (advanced.Ok? && serviceOk && old(activeProcesses).Some? ==>
              && activeProcesses == Some(old(activeProcesses).value.Set(IdKey(advanced.value), advanced.value))
              && activeProcesses.value.Get(IdKey(advanced.value)) == Some(advanced.value)
              && viewHierarchy == ReduceTo(old(viewHierarchy), KeyString(Dashboard))
              && (Rooted(old(viewHierarchy)) && old(viewHierarchy) != [] ==> viewHierarchy == [Dashboard])
              && selectedProcess.None? && selectedWork.None? && selectedProject.None?
              && message == Some(ProcessSubmitted))
        && (advanced.Throws? || !serviceOk || old(activeProcesses).None? ==>
              && activeProcesses == old(activeProcesses) && viewHierarchy == old(viewHierarchy)
              && selectedProcess == old(selectedProcess) && selectedWork == old(selectedWork)
              && selectedProject == old(selectedProject) && message == Some(ProcessSubmitFailed))
    {
      calls := [];
      threw := true;
      if SelectedProcessView().Throws? {
        return;
      }
      var can := CanSubmitSelectedProcess();
      if can.Throws? {
        return;
      }
      threw := false;
      if !can.value {
        message := Some(FixFormErrors);
        return;
      }
      asyncPendingLockout := true;
      var advanced := Advance(selectedProcess.value, steps, now, user.name);
      if advanced.Ok? {
        calls := [UpdateRequestElement(advanced.value, Processes)];
      }
      if advanced.Ok? && serviceOk && activeProcesses.Some? {
        ProcessSubmittedOk(advanced.value);
      } else {
        message := Some(ProcessSubmitFailed);
      }
      asyncPendingLockout := false;
    }

    /** What submitSelectedProcess does once the service accepted the
        advanced process: replace it in the active cache, return to the
        dashboard, clear the selection and report success. */
    method ProcessSubmittedOk(advanced: Element)
      requires Valid() && activeProcesses.Some?
      modifies this`activeProcesses, this`viewHierarchy, this`selectedProcess, this`selectedWork, this`selectedProject
      modifies this`message
      ensures Valid()
      ensures activeProcesses == Some(old(activeProcesses).value.Set(IdKey(advanced), advanced))
      ensures activeProcesses.value.Get(IdKey(advanced)) == Some(advanced)
      ensures viewHierarchy == ReduceTo(old(viewHierarchy), KeyString(Dashboard))
      ensures Rooted(old(viewHierarchy)) && old(viewHierarchy) != [] ==> viewHierarchy == [Dashboard]
      ensures selectedProcess.None? && selectedWork.None? && selectedProject.None?
      ensures message == Some(ProcessSubmitted)
    {
      ReplaceKeepsKeyed(activeProcesses.value, advanced);
      activeProcesses := Some(activeProcesses.value.Set(IdKey(advanced), advanced));
      if Rooted(viewHierarchy) {
        ReduceToDashboard(viewHierarchy, KeyString(Dashboard));
      }
      viewHierarchy := ReduceTo(viewHierarchy, KeyString(Dashboard));
      selectedProcess, selectedProject, selectedWork := None, None, None;
      message := Some(ProcessSubmitted);
    }

    // -------------------------------------------------------------------------
    // Notes

    /** submitNewNote: fill in the note, create it, and on success give it the
        assigned Id and put it at the head of its list. `created` is the Id the
        service assigns, None when the call is rejected. The note object the
        caller passed is returned as it ends up. */
    method SubmitNewNote(note: Note, source: NoteSource, user: User, now: string, created: Option<int>)
      returns (status: bool, sent: Note, calls: seq<Call>)
      modifies this`asyncPendingLockout, this`selectedWorkNotes, this`selectedProjectNotes, this`message
      ensures
        var stamped := StampNewNote(note, source, now, user.name, old(selectedProcess), old(selectedProject), old(selectedWork));
        && !asyncPendingLockout
        && (status <==> stamped.complete && created.Some?)
        && calls == (if stamped.complete then [CreateNote(stamped.note)] else [])
        && sent == (if status then stamped.note.(id := created) else stamped.note)
        && (status && source == WorkSource ==>
              selectedWorkNotes == Prepend(sent, old(selectedWorkNotes)) && selectedProjectNotes == old(selectedProjectNotes))
        && (status && source == ProjectSource ==>
              selectedProjectNotes == Prepend(sent, old(selectedProjectNotes)) && selectedWorkNotes == old(selectedWorkNotes))
        && (!status ==> selectedWorkNotes == old(selectedWorkNotes) && selectedProjectNotes == old(selectedProjectNotes))
        && message == Some(if status then NoteSubmitted else NoteSubmitFailed)
    {
      asyncPendingLockout := true;
      var stamped := StampNewNote(note, source, now, user.name, selectedProcess, selectedProject, selectedWork);
      sent := stamped.note;
      calls := [];
      status := false;
      if stamped.complete {
        calls := [CreateNote(sent)];
        if created.Some? {
          sent := sent.(id := created);
          if source == WorkSource {
            selectedWorkNotes := Prepend(sent, selectedWorkNotes);
          } else {
            selectedProjectNotes := Prepend(sent, selectedProjectNotes);
          }
          status := true;
        }
      }
      message := Some(if status then NoteSubmitted else NoteSubmitFailed);
      asyncPendingLockout := false;
    }

    /** updateNote: re-date the note, send it, and on success replace the note
        with its Id in its list. */
    method UpdateNote(note: Note, source: NoteSource, now: string, serviceOk: bool)
      returns (status: bool, sent: Note, calls: seq<Call>)
      modifies this`asyncPendingLockout, this`selectedWorkNotes, this`selectedProjectNotes, this`message
      ensures sent == note.(dateSubmitted := now) && calls == [Service.UpdateNote(sent)]
      ensures status == serviceOk && !asyncPendingLockout
      ensures status && source == WorkSource ==>
        selectedWorkNotes == ReplaceNote(sent, old(selectedWorkNotes)).list && selectedProjectNotes == old(selectedProjectNotes)
      ensures status && source == ProjectSource ==>
        selectedProjectNotes == ReplaceNote(sent, old(selectedProjectNotes)).list && selectedWorkNotes == old(selectedWorkNotes)
      ensures !status ==> selectedWorkNotes == old(selectedWorkNotes) && selectedProjectNotes == old(selectedProjectNotes)
      ensures message == Some(if status then NoteUpdated else NoteUpdateFailed)
    {
      asyncPendingLockout := true;
      sent := note.(dateSubmitted := now);
      calls := [Service.UpdateNote(sent)];
      status := serviceOk;
      if status {
        if source == WorkSource {
          selectedWorkNotes := ReplaceNote(sent, selectedWorkNotes).list;
        } else {
          selectedProjectNotes := ReplaceNote(sent, selectedProjectNotes).list;
        }
      }
      message := Some(if status then NoteUpdated else NoteUpdateFailed);
      asyncPendingLockout := false;
    }

    /** deleteNote: delete the note and on success remove it from its list. */
    method DeleteNote(note: Note, source: NoteSource, serviceOk: bool) returns (status: bool, calls: seq<Call>)
      modifies this`asyncPendingLockout, this`selectedWorkNotes, this`selectedProjectNotes, this`message
      ensures calls == [Service.DeleteNote(note.id)]
      ensures status == serviceOk && !asyncPendingLockout
      ensures status && source == WorkSource ==>
        selectedWorkNotes == RemoveNoteById(note, old(selectedWorkNotes)) && selectedProjectNotes == old(selectedProjectNotes)
      ensures status && source == ProjectSource ==>
        selectedProjectNotes == RemoveNoteById(note, old(selectedProjectNotes)) && selectedWorkNotes == old(selectedWorkNotes)
      ensures !status ==> selectedWorkNotes == old(selectedWorkNotes) && selectedProjectNotes == old(selectedProjectNotes)
      ensures message == Some(if status then NoteDeleted else NoteDeleteFailed)
    {
      asyncPendingLockout := true;
      calls := [Service.DeleteNote(note.id)];
      status := serviceOk;
      if status {
        if source == ProjectSource {
          selectedProjectNotes := RemoveNoteById(note, selectedProjectNotes);
        } else {
          selectedWorkNotes := RemoveNoteById(note, selectedWorkNotes);
        }
      }
      message := Some(if status then NoteDeleted else NoteDeleteFailed);
      asyncPendingLockout := false;
    }

    // -------------------------------------------------------------------------
    // Navigation

    function CurrentViewKey(): (r: Option<ViewKey>)
      reads this
      ensures r.Some? <==> viewHierarchy != []
      ensures r.Some? ==> r.value == viewHierarchy[|viewHierarchy| - 1]
    {
      CurrentView(viewHierarchy)
    }

    method ReduceViewHierarchy(key: string)
      modifies this`viewHierarchy
      ensures viewHierarchy == ReduceTo(old(viewHierarchy), key)
      ensures Occurs(old(viewHierarchy), key) ==>
        viewHierarchy != [] && KeyString(viewHierarchy[|viewHierarchy| - 1]) == key
      ensures !Occurs(old(viewHierarchy), key) ==> viewHierarchy == []
    {
      ReduceToSpec(viewHierarchy, key);
      viewHierarchy := ReduceTo(viewHierarchy, key);
    }

    method ExtendViewHierarchy(key: ViewKey)
      modifies this`viewHierarchy
      ensures viewHierarchy == Extend(old(viewHierarchy), key)
      ensures CurrentViewKey() == Some(key)
    {
      viewHierarchy := Extend(viewHierarchy, key);
    }

    function BreadcrumbItems(): (r: Try<seq<Crumb>>)
      reads this
      ensures r.Throws? <==> ProcessDetail in viewHierarchy && selectedProcess.None?
      ensures r.Ok? ==> |r.value| == |viewHierarchy|
    {
      Breadcrumbs(viewHierarchy, selectedProcess)
    }

    method SetAsyncPendingLockout(val: bool)
      modifies this`asyncPendingLockout
      ensures asyncPendingLockout == val
    {
      asyncPendingLockout := val;
    }

    /** postMessage; the timer that clears the message is not modelled. */
    method PostMessage(m: Message)
      modifies this`message
      ensures message == Some(m)
    {
      message := Some(m);
    }
  }
}
