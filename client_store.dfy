/** ClientStore: the client's request builder. It holds the records being
    filled in, the fetched projects, processes and works, and the view state
    of the request form. Commands that call the data service take each call's
    outcome as a parameter and return the calls they made. */
module ClientStore {
  import opened Wrappers
  import opened Elements
  import opened Forms
  import opened Session
  import opened Service
  import opened ClientModel
  import opened Lists

  /** The view state of the client form. Its class and defaults are not part
      of this model: a fresh instance is a parameter of the store. */
  datatype ClientView = ClientView(
    projectType: Option<string>,
    workType: Option<string>,
    workIsNew: bool,
    workId: Option<string>,
    showProcessModal: bool,
    asyncPendingLockout: bool)

  /** A truthy string field: set and non-empty. */
  predicate Present(s: Option<string>)
  {
    s.Some? && s.value != ""
  }

  /** A string field stored into a record. */
  function StrOpt(s: Option<string>): (r: Option<Value>)
    ensures r.Some? <==> s.Some?
    ensures s.Some? ==> r == Some(Str(s.value))
  {
    match s
    case None => None
    case Some(x) => Some(Str(x))
  }

  const ProjectCreated := Message("project successfully created", Success)
  const ProjectCreateFailed := Message("there was a problem creating your new Project, try again", Error)
  const ProcessRequestSubmitted := Message("the new Process request was submitted successfully", Success)
  const ProcessRequestFailed := Message("there was a problem submitting your new Process request, try again", Error)

  /** Index i holds the first element of the list whose Id equals the item's. */
  predicate FirstMatch(list: seq<Element>, item: Element, i: int)
  {
    && 0 <= i < |list| && Get(list[i], "Id") == Get(item, "Id")
    && forall j :: 0 <= j < i ==> Get(list[j], "Id") != Get(item, "Id")
  }

  /** Control i sets its field last: no later control has the same field. */
  predicate LastOfField(form: Form, i: int)
    requires 0 <= i < |form|
  {
    forall j :: i < j < |form| ==> form[j].dataRef != form[i].dataRef
  }

  class ClientStore {
    /** The form view loader, the per-field validator and `new View()`. */
    const viewOf: ViewTable
    const validateControl: ControlValidator
    const freshView: ClientView

    var message: Option<Message>
    var currentUser: User
    var newProject: Element
    var newProcess: Element
    var newWork: Element
    var projects: seq<ProjectGroup>
    var processes: seq<Element>
    var works: seq<Element>
    var view: ClientView
    var selectedWorkId: Option<string>

    /** The three records being built start as fresh client maps. */
    constructor(user: User, viewOf: ViewTable, validateControl: ControlValidator, freshView: ClientView)
      ensures this.viewOf == viewOf && this.validateControl == validateControl && this.freshView == freshView
      ensures currentUser == user && message.None? && selectedWorkId.None?
      ensures newProject == ClientObsMap(user) && newProcess == ClientObsMap(user) && newWork == ClientObsMap(user)
      ensures projects == [] && processes == [] && works == [] && view == freshView
    {
      this.viewOf := viewOf;
      this.validateControl := validateControl;
      this.freshView := freshView;
      message := None;
      currentUser := user;
      newProject := ClientObsMap(user);
      newProcess := ClientObsMap(user);
      newWork := ClientObsMap(user);
      projects, processes, works := [], [], [];
      view := freshView;
      selectedWorkId := None;
    }

    // -------------------------------------------------------------------------
    // Derived values

    /** currentForm: the view of the work type, else of the project type. */
    function CurrentForm(): Form
      reads this`view
    {
      viewOf(if Present(view.workType) then view.workType else view.projectType)
    }

    /** currentFormValidation over the new work (`newWork || newProject` is
        always the new work, a map being truthy). */
    function CurrentFormValidation(): (r: map<string, Option<string>>)
      reads this`view, this`newWork
      ensures forall f :: f in r <==> exists i :: 0 <= i < |CurrentForm()| && CurrentForm()[i].dataRef == f
      ensures forall i :: 0 <= i < |CurrentForm()| && LastOfField(CurrentForm(), i) ==>
        && (!Truthy(Get(newWork, CurrentForm()[i].dataRef)) ==> r[CurrentForm()[i].dataRef].None?)
        && (Truthy(Get(newWork, CurrentForm()[i].dataRef)) ==>
              r[CurrentForm()[i].dataRef] == validateControl(CurrentForm()[i], newWork[CurrentForm()[i].dataRef]))
    {
      var form := CurrentForm();
      FormValidationDomain(form, newWork, validateControl);
      forall i | 0 <= i < |form| && LastOfField(form, i)
        ensures FormValidation(form, newWork, validateControl)[form[i].dataRef] == FieldError(form[i], newWork, validateControl)
      {
        FormValidationEntry(form, newWork, validateControl, i);
      }
      FormValidation(form, newWork, validateControl)
    }

    /** clientProcesses: a sorted copy of the processes, by numeric project
        id; the observable array itself keeps its order. */
    function ClientProcesses(): (sorted: seq<Element>)
      reads this`processes
      ensures multiset(sorted) == multiset(processes)
      ensures forall id :: ProcessCount(sorted, id) == ProcessCount(processes, id)
      ensures AllNumeric(processes) ==> SortedByProjectId(sorted)
    {
      SortByProjectIdSpec(processes);
      SortByProjectId(processes)
    }

    /** getProcessCount: the number of client processes of the project, counted
        over clientProcesses. `id.toString()` runs once per process, so a
        project with neither Id nor projectId throws only when there is one. */
    function GetProcessCount(proj: Element): (r: Try<nat>)
      reads this`processes
      ensures r.Throws? <==> CountId(proj).None? && processes != []
      ensures r.Ok? ==> r.value == CountOf(proj, processes)
    {
      var sorted := ClientProcesses();
      match CountId(proj)
      case None => if sorted != [] then Throws else Ok(0)
      case Some(id) => Ok(ProcessCount(sorted, id))
    }

    // -------------------------------------------------------------------------
    // cleanProjects

    /** The first map of cleanProjects on one project: its Id and Title are
        read first, then getProcessCount counts, then the submitter is read. */
    function GroupProject(proj: Element, index: nat): (r: Try<ProjectGroup>)
      reads this`processes
      ensures r.Throws? <==> !Groupable(proj, processes)
      ensures r.Ok? ==> r.value == GroupOf(proj, index, processes)
    {
      if Get(proj, "Id").None? || Get(proj, "Title").None? then Throws
      else match GetProcessCount(proj)
        case Throws => Throws
        case Ok(count) =>
          if Get(proj, "submitterId").None? then Throws
          else Ok(ProjectGroup(NatToString(index), ValueToString(proj["Id"]), ValueToString(proj["Title"]),
                               ValueToString(proj["Title"]), count, ValueToString(proj["submitterId"]), 0, false))
    }

    /** The second map of cleanProjects: each group starts where the one
        before it ends, the first at 0. */
    static method FillStartIndices(base: seq<ProjectGroup>) returns (groups: seq<ProjectGroup>)
      ensures |groups| == |base|
      ensures forall j :: 0 <= j < |base| ==> groups[j] == base[j].(startIndex := SumCounts(base[..j]))
    {
      groups := base;
      var k := 0;
      while k < |groups|
        invariant 0 <= k <= |groups| == |base|
        invariant forall j :: 0 <= j < k ==> groups[j] == base[j].(startIndex := SumCounts(base[..j]))
        invariant forall j :: k <= j < |groups| ==> groups[j] == base[j]
      {
        if k > 0 {
          StartIndexStep(base, k);
          groups := groups[k := groups[k].(startIndex := groups[k - 1].count + groups[k - 1].startIndex)];
        } else {
          assert base[..0] == [];
          groups := groups[k := groups[k].(startIndex := 0)];
        }
        k := k + 1;
      }
    }

    /** The first map of cleanProjects: the groups of the projects in order,
        before their start offsets are filled in. */
    method BuildGroups(list: seq<Element>) returns (threw: bool, base: seq<ProjectGroup>)
      ensures threw <==> exists i :: 0 <= i < |list| && !Groupable(list[i], processes)
      ensures !threw ==> |base| == |list| && forall i :: 0 <= i < |list| ==> base[i] == GroupOf(list[i], i, processes)
    {
      base := [];
      var i := 0;
      while i < |list|
        invariant 0 <= i <= |list| && |base| == i
        invariant forall j :: 0 <= j < i ==> Groupable(list[j], processes) && base[j] == GroupOf(list[j], j, processes)
      {
        var g := GroupProject(list[i], i);
        if g.Throws? {
          return true, base;
        }
        base := base + [g.value];
        i := i + 1;
      }
      threw := false;
    }

    /** cleanProjects: one group per project, in order, whose start offset is
        the sum of the counts before it. A project whose group cannot be built
        throws and leaves the groups as they were. The processes are only
        read. */
    method CleanProjects(list: seq<Element>) returns (threw: bool)
      modifies this`projects
      ensures threw <==> exists i :: 0 <= i < |list| && !Groupable(list[i], processes)
      ensures threw ==> projects == old(projects)
      ensures !threw ==>
        && |projects| == |list|
        && (forall i :: 0 <= i < |list| ==>
              projects[i] == GroupOf(list[i], i, processes).(startIndex := SumCounts(projects[..i])))
        && (|projects| > 0 ==> projects[0].startIndex == 0)
        && (forall i :: 0 < i < |projects| ==>
              projects[i].startIndex == projects[i - 1].startIndex + projects[i - 1].count)
      ensures processes == old(processes)
    {
      var base;
      threw, base := BuildGroups(list);
      if threw {
        return;
      }
      var groups := FillStartIndices(base);
      forall j | 0 <= j <= |groups| ensures SumCounts(groups[..j]) == SumCounts(base[..j]) {
        SumCountsOfCounts(groups[..j], base[..j]);
      }
      assert |groups| > 0 ==> base[..0] == [];
      forall j | 0 < j < |groups| ensures groups[j].startIndex == groups[j - 1].startIndex + groups[j - 1].count {
        StartIndexStep(base, j);
      }
      projects := groups;
    }

    // -------------------------------------------------------------------------
    // Submitting

    /** submitProject: stamp the project type and create the project. */
    method SubmitProject(serviceOk: bool) returns (calls: seq<Call>)
      modifies this`view, this`newProject, this`message
      ensures newProject == SetOpt(old(newProject), "type", StrOpt(old(view).projectType))
      ensures calls == [CreateProject(newProject)]
      ensures view == old(view).(asyncPendingLockout := false)
      ensures message == Some(if serviceOk then ProjectCreated else ProjectCreateFailed)
    {
      view := view.(asyncPendingLockout := true);
      newProject := SetOpt(newProject, "type", StrOpt(view.projectType));
      calls := [CreateProject(newProject)];
      message := Some(if serviceOk then ProjectCreated else ProjectCreateFailed);
      view := view.(asyncPendingLockout := false);
    }

    /** submitWork: stamp the work type and create the work. `createdId` is the
        Id the service returns, None when the call is rejected or returns no Id;
        it is kept as the selected work id. */
    method SubmitWork(createdId: Option<Value>) returns (calls: seq<Call>)
      modifies this`view, this`newWork, this`selectedWorkId, this`message
      ensures newWork == SetOpt(old(newWork), "type", StrOpt(old(view).workType))
      ensures calls == [CreateWork(newWork)]
      ensures view == old(view).(asyncPendingLockout := false)
      ensures createdId.Some? ==> selectedWorkId == Some(ValueToString(createdId.value)) && message == old(message)
      ensures createdId.None? ==> selectedWorkId == old(selectedWorkId) && message == Some(ProcessRequestFailed)
    {
      view := view.(asyncPendingLockout := true);
      newWork := SetOpt(newWork, "type", StrOpt(view.workType));
      calls := [CreateWork(newWork)];
      if createdId.Some? {
        selectedWorkId := Some(ValueToString(createdId.value));
      } else {
        message := Some(ProcessRequestFailed);
      }
      view := view.(asyncPendingLockout := false);
    }

    /** The title the new process takes: the new work's, or the title of the
        existing work whose Id is the form's work id. */
    function ProcessTitle(): Try<Option<Value>>
      reads this`view, this`newWork, this`works
    {
      if view.workIsNew then Ok(Get(newWork, "Title")) else WorkTitle(works, view.workId)
    }

    /** submitProcess: the new process enters at "Intake" with its work's title
        and the form's work id. Whatever happens, the lockout is cleared, the
        process record is appended to the processes and the modal is hidden. */
    method SubmitProcess(serviceOk: bool) returns (calls: seq<Call>)
      modifies this`view, this`newProcess, this`processes, this`message
      ensures old(ProcessTitle()).Throws? ==>
        newProcess == old(newProcess)["step" := Str("Intake")] && calls == [] && message == Some(ProcessRequestFailed)
      ensures old(ProcessTitle()).Ok? ==>
        newProcess == SetOpt(SetOpt(old(newProcess)["step" := Str("Intake")], "Title", old(ProcessTitle()).value),
                             "workId", StrOpt(old(view).workId))
      ensures old(ProcessTitle()).Ok? ==>
        calls == [CreateProcess(newProcess)] && message == Some(if serviceOk then ProcessRequestSubmitted else ProcessRequestFailed)
      ensures Get(newProcess, "step") == Some(Str("Intake"))
      ensures processes == old(processes) + [newProcess]
      ensures view == old(view).(asyncPendingLockout := false, showProcessModal := false)
    {
      var title := ProcessTitle();
      view := view.(asyncPendingLockout := true);
      var record := newProcess["step" := Str("Intake")];
      calls := [];
      if title.Throws? {
        message := Some(ProcessRequestFailed);
      } else {
        record := SetOpt(SetOpt(record, "Title", title.value), "workId", StrOpt(view.workId));
        calls := [CreateProcess(record)];
        message := Some(if serviceOk then ProcessRequestSubmitted else ProcessRequestFailed);
      }
      newProcess := record;
      processes := processes + [record];
      view := view.(asyncPendingLockout := false, showProcessModal := false);
    }

    /** processClientRequest: a project type submits the project; otherwise a
        new work submits the work and then the process; otherwise only the
        process. The view is reset afterwards in every case. */
    method ProcessClientRequest(projectOk: bool, createdWorkId: Option<Value>, processOk: bool) returns (calls: seq<Call>)
      modifies this`view, this`newProject, this`newWork, this`newProcess, this`processes
      modifies this`message, this`selectedWorkId
      ensures view == freshView
      ensures Present(old(view).projectType) ==>
        && calls == [CreateProject(newProject)]
        && newProject == SetOpt(old(newProject), "type", StrOpt(old(view).projectType))
        && newWork == old(newWork) && newProcess == old(newProcess) && processes == old(processes)
        && selectedWorkId == old(selectedWorkId)
        && message == Some(if projectOk then ProjectCreated else ProjectCreateFailed)
      ensures !Present(old(view).projectType) ==>
        && newProject == old(newProject)
        && processes == old(processes) + [newProcess]
        && Get(newProcess, "step") == Some(Str("Intake"))
      ensures !Present(old(view).projectType) && old(view).workIsNew ==>
        && newWork == SetOpt(old(newWork), "type", StrOpt(old(view).workType))
        && newProcess == SetOpt(SetOpt(old(newProcess)["step" := Str("Intake")], "Title", Get(newWork, "Title")),
                                "workId", StrOpt(old(view).workId))
        && calls == [CreateWork(newWork), CreateProcess(newProcess)]
        && selectedWorkId == (if createdWorkId.Some? then Some(ValueToString(createdWorkId.value)) else old(selectedWorkId))
        && message == Some(if processOk then ProcessRequestSubmitted else ProcessRequestFailed)
      ensures !Present(old(view).projectType) && !old(view).workIsNew ==>
        var title := old(WorkTitle(works, view.workId));
        && calls == (if title.Throws? then [] else [CreateProcess(newProcess)])
        && message == Some(if title.Ok? && processOk then ProcessRequestSubmitted else ProcessRequestFailed)
        && (title.Ok? ==>
              newProcess == SetOpt(SetOpt(old(newProcess)["step" := Str("Intake")], "Title", title.value),
                                   "workId", StrOpt(old(view).workId)))
        && (title.Throws? ==> newProcess == old(newProcess)["step" := Str("Intake")])
        && newWork == old(newWork) && selectedWorkId == old(selectedWorkId)
    {
      if Present(view.projectType) {
        calls := SubmitProject(projectOk);
      } else if view.workIsNew {
        var workCalls := SubmitWork(createdWorkId);
        var processCalls := SubmitProcess(processOk);
        calls := workCalls + processCalls;
      } else {
        calls := SubmitProcess(processOk);
      }
      view := freshView;
    }

    /** handleAddNewProcess: attach the new process to a project and open the modal. */
    method HandleAddNewProcess(projectId: string)
      modifies this`newProcess, this`view
      ensures newProcess == old(newProcess)["projectId" := Str(projectId)]
      ensures Get(newProcess, "projectId") == Some(Str(projectId))
      ensures view == old(view).(showProcessModal := true)
    {
      newProcess := newProcess["projectId" := Str(projectId)];
      view := view.(showProcessModal := true);
    }

    /** clearView. */
    method ClearView()
      modifies this`view
      ensures view == freshView
    {
      view := freshView;
    }

    // -------------------------------------------------------------------------
    // replaceElementInListById

    /** Overwrite, in place, the first element whose Id equals the new item's
        (`===`, so two absent Ids match); report whether one was found. */
    method ReplaceElementInListById(newItem: Element, list: array<Element>) returns (found: bool)
      modifies list
      ensures list[..] == ReplaceFirst(old(list[..]), newItem, (e: Element) => Get(e, "Id") == Get(newItem, "Id")).list
      ensures found <==> exists i :: 0 <= i < list.Length && Get(old(list[i]), "Id") == Get(newItem, "Id")
      ensures found ==> exists i :: FirstMatch(old(list[..]), newItem, i) && list[..] == old(list[..])[i := newItem]
      ensures !found ==> list[..] == old(list[..])
    {
      var i := 0;
      while i < list.Length && Get(list[i], "Id") != Get(newItem, "Id")
        invariant 0 <= i <= list.Length
        invariant forall j :: 0 <= j < i ==> Get(list[j], "Id") != Get(newItem, "Id")
      {
        i := i + 1;
      }
      var matches := (e: Element) => Get(e, "Id") == Get(newItem, "Id");
      ghost var before := list[..];
      assert FindIndex(before, matches) == (if i < list.Length then i else -1);
      if i < list.Length {
        assert FirstMatch(before, newItem, i);
        list[i] := newItem;
        found := true;
        assert list[..] == before[i := newItem];
      } else {
        found := false;
      }
    }
  }
}
