/** The pure part of ClientStore: project groups with their process counts and
    start offsets, the ordering of client processes by project id, the
    validation of the current form, and the lookup of an existing work. */
module ClientModel {
  import opened Wrappers
  import opened Elements
  import opened Forms
  import opened Session

  // ---------------------------------------------------------------------------
  // getProcessCount

  /** `id.toString() === proc.projectId`: the process's projectId is the very
      string form of the id (a numeric projectId never matches). */
  predicate InProject(proc: Element, id: Value)
  {
    Get(proc, "projectId") == Some(Str(ValueToString(id)))
  }

  /** The number of processes belonging to the project with the given id. */
  function ProcessCount(procs: seq<Element>, id: Value): (n: nat)
    ensures n <= |procs|
  {
    if procs == [] then 0 else (if InProject(procs[0], id) then 1 else 0) + ProcessCount(procs[1..], id)
  }

  lemma {:induction false} ProcessCountAppend(a: seq<Element>, b: seq<Element>, id: Value)
    ensures ProcessCount(a + b, id) == ProcessCount(a, id) + ProcessCount(b, id)
  {
    if a != [] {
      assert (a + b)[0] == a[0];
      assert (a + b)[1..] == a[1..] + b;
      ProcessCountAppend(a[1..], b, id);
    } else {
      assert a + b == b;
    }
  }

  /** `proj.Id ? proj.Id : proj.projectId`. */
  function CountId(proj: Element): Option<Value>
  {
    if Truthy(Get(proj, "Id")) then Get(proj, "Id") else Get(proj, "projectId")
  }

  // ---------------------------------------------------------------------------
  // cleanProjects

  /** IProjectGroup: one row group of the client's project list. */
  datatype ProjectGroup = ProjectGroup(
    key: string,
    projectId: string,
    title: string,
    name: string,
    count: nat,
    submitterId: string,
    startIndex: nat,
    isShowingAll: bool)

  /** The count getProcessCount yields; it reads `id.toString()` only inside
      the filter, so an empty process list gives 0 even without an id. */
  function CountOf(proj: Element, procs: seq<Element>): nat
  {
    match CountId(proj)
    case None => 0
    case Some(id) => ProcessCount(procs, id)
  }

  /** Building the group of a project does not throw: `proj.Id.toString()`,
      `proj.Title.toString()` and `proj.submitterId.toString()` succeed, and so
      does the `id.toString()` of getProcessCount whenever it is reached. */
  predicate Groupable(proj: Element, procs: seq<Element>)
  {
    && Get(proj, "Id").Some? && Get(proj, "Title").Some? && Get(proj, "submitterId").Some?
    && (CountId(proj).Some? || procs == [])
  }

  /** The group the first map of cleanProjects builds for the project at
      `index`, before the start offsets are filled in. */
  function GroupOf(proj: Element, index: nat, procs: seq<Element>): ProjectGroup
    requires Groupable(proj, procs)
  {
    ProjectGroup(NatToString(index), ValueToString(proj["Id"]), ValueToString(proj["Title"]),
                 ValueToString(proj["Title"]), CountOf(proj, procs), ValueToString(proj["submitterId"]), 0, false)
  }

  /** The total count of a list of groups. */
  function SumCounts(gs: seq<ProjectGroup>): nat
  {
    if gs == [] then 0 else SumCounts(gs[..|gs| - 1]) + gs[|gs| - 1].count
  }

  /** The start offset of a group is the start offset of the one before plus
      its count, starting from 0. */
  lemma StartIndexStep(gs: seq<ProjectGroup>, i: int)
    requires 0 < i <= |gs|
    ensures SumCounts(gs[..i]) == SumCounts(gs[..i - 1]) + gs[i - 1].count
  {
    assert gs[..i][..i - 1] == gs[..i - 1];
  }

  /** The total depends on the counts alone. */
  lemma {:induction false} SumCountsOfCounts(a: seq<ProjectGroup>, b: seq<ProjectGroup>)
    requires |a| == |b| && forall j :: 0 <= j < |a| ==> a[j].count == b[j].count
    ensures SumCounts(a) == SumCounts(b)
  {
    if a != [] {
      SumCountsOfCounts(a[..|a| - 1], b[..|b| - 1]);
    }
  }

  // ---------------------------------------------------------------------------
  // clientProcesses: sort by Number(projectId)

  function ProjectKey(e: Element): Option<int>
  {
    NumberOf(Get(e, "projectId"))
  }

  /** The comparator `Number(a.projectId) - Number(b.projectId)` is negative:
      both keys are numbers and the first is smaller (NaN compares as 0). */
  predicate Before(a: Element, b: Element)
  {
    ProjectKey(a).Some? && ProjectKey(b).Some? && ProjectKey(a).value < ProjectKey(b).value
  }

  /** Insert `x` before the first element it sorts strictly before. */
  function Insert(x: Element, s: seq<Element>): (r: seq<Element>)
    ensures multiset(r) == multiset(s) + multiset{x}
    ensures |r| == |s| + 1
  {
    if s == [] then [x]
    else if Before(x, s[0]) then [x] + s
    else
      assert s == [s[0]] + s[1..];
      [s[0]] + Insert(x, s[1..])
  }

  /** A stable insertion sort under the comparator. */
  function SortByProjectId(s: seq<Element>): (r: seq<Element>)
    ensures multiset(r) == multiset(s)
    ensures |r| == |s|
  {
    if s == [] then []
    else
      assert s == s[..|s| - 1] + [s[|s| - 1]];
      Insert(s[|s| - 1], SortByProjectId(s[..|s| - 1]))
  }

  lemma {:induction false} InsertCount(x: Element, s: seq<Element>, id: Value)
    ensures ProcessCount(Insert(x, s), id) == ProcessCount(s, id) + ProcessCount([x], id)
  {
    if s != [] && !Before(x, s[0]) {
      InsertCount(x, s[1..], id);
      ProcessCountAppend([s[0]], Insert(x, s[1..]), id);
      ProcessCountAppend([s[0]], s[1..], id);
      assert s == [s[0]] + s[1..];
    } else if s != [] {
      ProcessCountAppend([x], s, id);
    }
  }

  /** Sorting does not change how many processes belong to a project, so the
      sort getProcessCount triggers leaves every count as it was. */
  lemma {:induction false} SortKeepsCount(s: seq<Element>, id: Value)
    ensures ProcessCount(SortByProjectId(s), id) == ProcessCount(s, id)
  {
    if s != [] {
      var init := s[..|s| - 1];
      SortKeepsCount(init, id);
      InsertCount(s[|s| - 1], SortByProjectId(init), id);
      assert s == init + [s[|s| - 1]];
      ProcessCountAppend(init, [s[|s| - 1]], id);
    }
  }

  predicate AllNumeric(s: seq<Element>)
  {
    forall e :: e in s ==> ProjectKey(e).Some?
  }

  /** Non-decreasing numeric project ids. */
  predicate SortedByProjectId(s: seq<Element>)
  {
    && AllNumeric(s)
    && forall i, j :: 0 <= i < j < |s| ==> ProjectKey(s[i]).value <= ProjectKey(s[j]).value
  }

  /** The elements of an insertion are the inserted one and the old ones. */
  lemma InsertElements(x: Element, s: seq<Element>)
    ensures forall e :: e in Insert(x, s) <==> e == x || e in s
  {
    var r := Insert(x, s);
    assert forall e :: e in r <==> e in multiset(r);
    assert forall e :: e in s <==> e in multiset(s);
  }

  /** A sorted list stays sorted under a new head no greater than any element. */
  lemma SortedCons(y: Element, t: seq<Element>)
    requires SortedByProjectId(t) && ProjectKey(y).Some?
    requires forall e :: e in t ==> ProjectKey(y).value <= ProjectKey(e).value
    ensures SortedByProjectId([y] + t)
  {
    var r := [y] + t;
    assert forall e :: e in r ==> e == y || e in t;
    forall i, j | 0 <= i < j < |r| ensures ProjectKey(r[i]).value <= ProjectKey(r[j]).value {
      assert r[j] == t[j - 1];
      assert r[j] in t;
      if i > 0 {
        assert r[i] == t[i - 1];
      }
    }
  }

  lemma SortedTail(s: seq<Element>)
    requires SortedByProjectId(s) && s != []
    ensures SortedByProjectId(s[1..])
    ensures forall e :: e in s[1..] ==> ProjectKey(s[0]).value <= ProjectKey(e).value
  {
    var t := s[1..];
    assert forall e :: e in t ==> e in s;
    forall e | e in t ensures ProjectKey(s[0]).value <= ProjectKey(e).value {
      var k :| 0 <= k < |t| && t[k] == e;
      assert s[k + 1] == e;
    }
    forall i, j | 0 <= i < j < |t| ensures ProjectKey(t[i]).value <= ProjectKey(t[j]).value {
      assert t[i] == s[i + 1] && t[j] == s[j + 1];
    }
  }

  lemma {:induction false} InsertSorted(x: Element, s: seq<Element>)
    requires SortedByProjectId(s) && ProjectKey(x).Some?
    ensures SortedByProjectId(Insert(x, s))
  {
    if s == [] {
      assert Insert(x, s) == [x];
    } else {
      SortedTail(s);
      if Before(x, s[0]) {
        assert forall e :: e in s ==> e == s[0] || e in s[1..] by {
          assert s == [s[0]] + s[1..];
        }
        SortedCons(x, s);
      } else {
        var t := s[1..];
        InsertSorted(x, t);
        InsertElements(x, t);
        SortedCons(s[0], Insert(x, t));
      }
    }
  }

  /** With every project id numeric, the sort leaves the processes in
      non-decreasing order of project id. */
  lemma {:induction false} SortSorted(s: seq<Element>)
    requires AllNumeric(s)
    ensures SortedByProjectId(SortByProjectId(s))
  {
    if s != [] {
      var init := s[..|s| - 1];
      assert AllNumeric(init) by {
        assert forall e :: e in init ==> e in s;
      }
      SortSorted(init);
      InsertSorted(s[|s| - 1], SortByProjectId(init));
    }
  }

  /** The sorted copy keeps every project's count, and is ordered by project
      id when every id is numeric. */
  lemma SortByProjectIdSpec(s: seq<Element>)
    ensures forall id :: ProcessCount(SortByProjectId(s), id) == ProcessCount(s, id)
    ensures AllNumeric(s) ==> SortedByProjectId(SortByProjectId(s))
  {
    forall id ensures ProcessCount(SortByProjectId(s), id) == ProcessCount(s, id) {
      SortKeepsCount(s, id);
    }
    if AllNumeric(s) {
      SortSorted(s);
    }
  }

  // ---------------------------------------------------------------------------
  // currentFormValidation

  /** `inputVal ? validateFormControl(control, inputVal) : null`, where an
      empty or absent value counts as no input. */
  function FieldError(control: FormControl, record: Element, validate: ControlValidator): Option<string>
  {
    var input := Get(record, control.dataRef);
    if Truthy(input) then validate(control, input.value) else None
  }

  /** The reduce of currentFormValidation: each control in turn sets the entry
      of its field. */
  function FormValidation(form: Form, record: Element, validate: ControlValidator): map<string, Option<string>>
  {
    if form == [] then map[]
    else
      var last := form[|form| - 1];
      FormValidation(form[..|form| - 1], record, validate)[last.dataRef := FieldError(last, record, validate)]
  }

  /** The fields with an entry are exactly the fields of the form's controls. */
  lemma {:induction false} FormValidationDomain(form: Form, record: Element, validate: ControlValidator)
    ensures forall f :: f in FormValidation(form, record, validate) <==> exists i :: 0 <= i < |form| && form[i].dataRef == f
  {
    if form != [] {
      var init := form[..|form| - 1];
      FormValidationDomain(init, record, validate);
      assert forall i :: 0 <= i < |init| ==> init[i] == form[i];
    }
  }

  /** A field's entry is the result for the last control that edits it. */
  lemma {:induction false} FormValidationEntry(form: Form, record: Element, validate: ControlValidator, i: int)
    requires 0 <= i < |form|
    requires forall j :: i < j < |form| ==> form[j].dataRef != form[i].dataRef
    ensures form[i].dataRef in FormValidation(form, record, validate)
    ensures FormValidation(form, record, validate)[form[i].dataRef] == FieldError(form[i], record, validate)
  {
    if i < |form| - 1 {
      var init := form[..|form| - 1];
      assert init[i] == form[i];
      FormValidationEntry(init, record, validate, i);
    }
  }

  /** With distinct fields, every control has its own entry. */
  lemma FormValidationDistinct(form: Form, record: Element, validate: ControlValidator)
    requires forall i, j :: 0 <= i < j < |form| ==> form[i].dataRef != form[j].dataRef
    ensures forall i :: 0 <= i < |form| ==>
      form[i].dataRef in FormValidation(form, record, validate)
      && FormValidation(form, record, validate)[form[i].dataRef] == FieldError(form[i], record, validate)
  {
    forall i | 0 <= i < |form|
      ensures form[i].dataRef in FormValidation(form, record, validate)
      ensures FormValidation(form, record, validate)[form[i].dataRef] == FieldError(form[i], record, validate)
    {
      FormValidationEntry(form, record, validate, i);
    }
  }

  // ---------------------------------------------------------------------------
  // submitProcess: the existing work

  /** `work.Id.toString() === workId`; a work without an Id makes the
      predicate throw. */
  predicate IdMatches(work: Element, workId: Option<string>)
  {
    Get(work, "Id").Some? && workId == Some(ValueToString(Get(work, "Id").value))
  }

  /** The search gets past the first i works: each has an Id that does not
      match. */
  predicate PassedOver(works: seq<Element>, workId: Option<string>, i: int)
    requires 0 <= i <= |works|
  {
    forall j :: 0 <= j < i ==> Get(works[j], "Id").Some? && !IdMatches(works[j], workId)
  }

  /** `works.find(work => work.Id.toString() === workId)`. */
  function FindWork(works: seq<Element>, workId: Option<string>): (r: Try<Option<Element>>)
    ensures r == Ok(None) <==>
      forall j :: 0 <= j < |works| ==> Get(works[j], "Id").Some? && !IdMatches(works[j], workId)
    ensures r.Ok? && r.value.Some? ==>
      exists i :: 0 <= i < |works| && works[i] == r.value.value && IdMatches(works[i], workId) && PassedOver(works, workId, i)
    ensures r.Throws? <==>
      exists i :: 0 <= i < |works| && Get(works[i], "Id").None? && PassedOver(works, workId, i)
  {
    if works == [] then Ok(None)
    else if Get(works[0], "Id").None? then Throws
    else if IdMatches(works[0], workId) then Ok(Some(works[0]))
    else
      var r := FindWork(works[1..], workId);
      assert forall j :: 1 <= j < |works| ==> works[j] == works[1..][j - 1];
      r
  }

  /** A work without an Id ahead of the match stops the search with a throw. */
  lemma FindWorkStopsAtIdless()
    ensures FindWork([map[], map["Id" := Num(1)]], Some("1")).Throws?
  {
  }

  /** `works.find(...).Title`: reading the title of no work throws. */
  function WorkTitle(works: seq<Element>, workId: Option<string>): (r: Try<Option<Value>>)
    ensures r.Ok? <==> exists i :: 0 <= i < |works| && FirstWorkMatch(works, workId, i)
    ensures forall i :: 0 <= i < |works| && FirstWorkMatch(works, workId, i) ==> r == Ok(Get(works[i], "Title"))
  {
    FirstWorkMatchSpec(works, workId);
    match FindWork(works, workId)
    case Ok(Some(w)) => Ok(Get(w, "Title"))
    case _ => Throws
  }

  /** The search stops at index i with a match. */
  predicate FirstWorkMatch(works: seq<Element>, workId: Option<string>, i: int)
    requires 0 <= i < |works|
  {
    IdMatches(works[i], workId) && PassedOver(works, workId, i)
  }

  /** The search finds a work exactly when it stops at a match, and then it
      finds the work at that index. */
  lemma FirstWorkMatchSpec(works: seq<Element>, workId: Option<string>)
    ensures (FindWork(works, workId).Ok? && FindWork(works, workId).value.Some?) <==>
      exists i :: 0 <= i < |works| && FirstWorkMatch(works, workId, i)
    ensures forall i :: 0 <= i < |works| && FirstWorkMatch(works, workId, i) ==>
      FindWork(works, workId) == Ok(Some(works[i]))
  {
    var r := FindWork(works, workId);
    forall i | 0 <= i < |works| && FirstWorkMatch(works, workId, i)
      ensures r == Ok(Some(works[i]))
    {
      if r.Ok? && r.value.Some? {
        var k :| 0 <= k < |works| && works[k] == r.value.value && IdMatches(works[k], workId) && PassedOver(works, workId, k);
        assert k == i;
      }
    }
    if r.Ok? && r.value.Some? {
      var k :| 0 <= k < |works| && works[k] == r.value.value && IdMatches(works[k], workId) && PassedOver(works, workId, k);
      assert FirstWorkMatch(works, workId, k);
    }
  }

  // ---------------------------------------------------------------------------
  // Fresh maps and type options

  /** getClientObsMap: a record holding only the submitter's Id. */
  function ClientObsMap(user: User): (m: Element)
    ensures m.Keys == {"submitterId"} && Get(m, "submitterId") == Some(user.id)
  {
    map["submitterId" := user.id]
  }

  const WorkTypes: seq<string> := ["Music", "Book", "Article", "Book Chapter", "Image", "Video", "Website", "Other"]
  const ProjectTypes: seq<string> := ["Synch", "Arranging", "Masters", "Grand", "Theatrical", "Movies", "Images"]

  /** A dropdown option. */
  datatype TypeOption = TypeOption(key: string, text: string)

  function OptionsOf(types: seq<string>): (r: seq<TypeOption>)
    ensures |r| == |types|
    ensures forall i :: 0 <= i < |types| ==> r[i].key == types[i] && r[i].text == types[i]
  {
    seq(|types|, i requires 0 <= i < |types| => TypeOption(types[i], types[i]))
  }

  /** typesAsOptions: the PROJECTS and WORKS option lists. */
  datatype TypeOptions = TypeOptions(projects: seq<TypeOption>, works: seq<TypeOption>)

  function TypesAsOptions(): (r: TypeOptions)
    ensures |r.projects| == 7 && |r.works| == 8
    ensures forall i :: 0 <= i < |r.works| ==> r.works[i].key == WorkTypes[i]
    ensures forall i :: 0 <= i < |r.projects| ==> r.projects[i].key == ProjectTypes[i]
  {
    TypeOptions(OptionsOf(ProjectTypes), OptionsOf(WorkTypes))
  }
}
