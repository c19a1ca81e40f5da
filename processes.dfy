/** The employee store's derived views of its process cache: counts per step,
    the processes of the focused step, process briefs for the lists, the
    process a submit produces, and the submission metadata of a field. */
module Processes {
  import opened Wrappers
  import opened Elements
  import opened Caches
  import opened Steps
  import opened Lists

  /** `process.step` as an object key: stringified, "undefined" when absent. */
  function StepKey(e: Element): string
  {
    OptToString(Get(e, "step"))
  }

  /** `process.step === name`: a string field equal to the step name. */
  predicate AtStep(e: Element, name: string)
  {
    Get(e, "step") == Some(Str(name))
  }

  // ---------------------------------------------------------------------------
  // processCountsByStep

  /** The reduce of processCountsByStep: left to right, a step seen for the
      first time gets 1, a step seen before is incremented. */
  function CountsByStep(vs: seq<Element>): map<string, nat>
  {
    if vs == [] then map[]
    else
      var acc := CountsByStep(vs[..|vs| - 1]);
      var k := StepKey(vs[|vs| - 1]);
      if k in acc then acc[k := acc[k] + 1] else acc[k := 1]
  }

  /** Reference definition: the number of processes whose step key is `s`. */
  function CountAt(vs: seq<Element>, s: string): nat
  {
    if vs == [] then 0 else (if StepKey(vs[0]) == s then 1 else 0) + CountAt(vs[1..], s)
  }

  lemma {:induction false} CountAtSnoc(vs: seq<Element>, e: Element, s: string)
    ensures CountAt(vs + [e], s) == CountAt(vs, s) + (if StepKey(e) == s then 1 else 0)
  {
    if vs != [] {
      assert (vs + [e])[1..] == vs[1..] + [e];
      CountAtSnoc(vs[1..], e, s);
    }
  }

  /** The sum of the values of a map. */
  ghost function MapSum(m: map<string, nat>): nat
    decreases |m|
  {
    if |m| == 0 then 0
    else
      var k :| k in m;
      m[k] + MapSum(m - {k})
  }

  lemma {:induction false} MapSumRemove(m: map<string, nat>, k: string)
    requires k in m
    ensures MapSum(m) == m[k] + MapSum(m - {k})
    decreases |m|, 1
  {
    assert |m| > 0 by { assert k in m.Keys; }
    var k' :| k' in m && MapSum(m) == m[k'] + MapSum(m - {k'});
    if k' != k {
      MapSumSwap(m, k, k');
    }
  }

  /** Taking out either of two keys first gives the same sum. */
  lemma {:induction false} MapSumSwap(m: map<string, nat>, k: string, k': string)
    requires k in m && k' in m && k != k'
    ensures m[k'] + MapSum(m - {k'}) == m[k] + MapSum(m - {k})
    decreases |m|, 0
  {
    var m1 := m - {k'};
    var m2 := m - {k};
    assert m1 - {k} == m2 - {k'};
    assert |m1| < |m| by { assert m1.Keys < m.Keys; }
    assert |m2| < |m| by { assert m2.Keys < m.Keys; }
    MapSumRemove(m1, k);
    MapSumRemove(m2, k');
  }

  lemma MapSumIncrement(m: map<string, nat>, k: string)
    ensures MapSum(if k in m then m[k := m[k] + 1] else m[k := 1]) == MapSum(m) + 1
  {
    if k in m {
      MapSumIncrementPresent(m, k);
    } else {
      MapSumAdd(m, k);
    }
  }

  lemma MapSumIncrementPresent(m: map<string, nat>, k: string)
    requires k in m
    ensures MapSum(m[k := m[k] + 1]) == MapSum(m) + 1
  {
    var m' := m[k := m[k] + 1];
    MapSumRemove(m', k);
    assert m' - {k} == m - {k};
    MapSumRemove(m, k);
  }

  lemma MapSumAdd(m: map<string, nat>, k: string)
    requires k !in m
    ensures MapSum(m[k := 1]) == MapSum(m) + 1
  {
    var m' := m[k := 1];
    MapSumRemove(m', k);
    assert m' - {k} == m;
  }

  /** processCountsByStep: a step is a key exactly when some process is at it. */
  lemma {:induction false} CountsByStepDomain(vs: seq<Element>)
    ensures forall s :: s in CountsByStep(vs) <==> exists i :: 0 <= i < |vs| && StepKey(vs[i]) == s
  {
    if vs != [] {
      var init := vs[..|vs| - 1];
      CountsByStepDomain(init);
      assert forall i :: 0 <= i < |init| ==> init[i] == vs[i];
    }
  }

  /** processCountsByStep: the value of a step is the number of processes at it. */
  lemma {:induction false} CountsByStepCount(vs: seq<Element>, s: string)
    requires s in CountsByStep(vs)
    ensures CountsByStep(vs)[s] == CountAt(vs, s)
  {
    var init := vs[..|vs| - 1];
    var last := vs[|vs| - 1];
    assert vs == init + [last];
    CountAtSnoc(init, last, s);
    if s in CountsByStep(init) {
      CountsByStepCount(init, s);
    } else {
      CountsByStepDomain(init);
      assert forall i :: 0 <= i < |init| ==> StepKey(init[i]) != s;
      CountAtAbsent(init, s);
    }
  }

  /** processCountsByStep: the counts add up to the number of processes. */
  lemma {:induction false} CountsByStepSum(vs: seq<Element>)
    ensures MapSum(CountsByStep(vs)) == |vs|
  {
    if vs != [] {
      CountsByStepSum(vs[..|vs| - 1]);
      MapSumIncrement(CountsByStep(vs[..|vs| - 1]), StepKey(vs[|vs| - 1]));
    }
  }

  lemma {:induction false} CountAtAbsent(vs: seq<Element>, s: string)
    requires forall i :: 0 <= i < |vs| ==> StepKey(vs[i]) != s
    ensures CountAt(vs, s) == 0
  {
    if vs != [] {
      assert forall i :: 0 <= i < |vs| - 1 ==> vs[1..][i] == vs[i + 1];
      CountAtAbsent(vs[1..], s);
    }
  }

  // ---------------------------------------------------------------------------
  // selectedStepProcesses

  /** `values().filter(process => process.step === name)`, in order. */
  function AtStepFilter(vs: seq<Element>, name: string): (r: seq<Element>)
    ensures |r| <= |vs|
    ensures forall i :: 0 <= i < |r| ==> r[i] in vs && AtStep(r[i], name)
  {
    if vs == [] then []
    else if AtStep(vs[0], name) then [vs[0]] + AtStepFilter(vs[1..], name)
    else AtStepFilter(vs[1..], name)
  }

  lemma {:induction false} AtStepFilterDistinct(vs: seq<Element>, name: string)
    requires DistinctIds(vs)
    ensures DistinctIds(AtStepFilter(vs, name))
  {
    if vs != [] {
      var rest := vs[1..];
      assert DistinctIds(rest) by {
        forall i, j | 0 <= i < j < |rest| ensures IdKey(rest[i]) != IdKey(rest[j]) {
          assert rest[i] == vs[i + 1] && rest[j] == vs[j + 1];
        }
      }
      AtStepFilterDistinct(rest, name);
      var f := AtStepFilter(rest, name);
      forall i | 0 <= i < |f| ensures IdKey(f[i]) != IdKey(vs[0]) {
        var j :| 0 <= j < |rest| && rest[j] == f[i];
        assert vs[j + 1] == f[i];
      }
    }
  }

  lemma {:induction false} AtStepFilterMember(vs: seq<Element>, name: string, e: Element)
    ensures e in AtStepFilter(vs, name) <==> e in vs && AtStep(e, name)
  {
    if vs != [] {
      AtStepFilterMember(vs[1..], name, e);
      assert e in vs <==> e == vs[0] || e in vs[1..];
    }
  }

  /** selectedStepProcesses for a focused step. */
  function StepProcesses(active: ObsMap, name: string): ObsMap
    requires active.Valid()
  {
    MapById(AtStepFilter(active.Values(), name))
  }

  /** The focused step's cache holds exactly the active processes at that step,
      each under its own Id key, in the active cache's order. */
  lemma StepProcessesSpec(active: ObsMap, name: string)
    requires active.Valid() && KeyedById(active)
    ensures StepProcesses(active, name).Values() == AtStepFilter(active.Values(), name)
    ensures forall k ::
      StepProcesses(active, name).Get(k) == (if k in active.entries && AtStep(active.entries[k], name) then Some(active.entries[k]) else None)
  {
    var vs := active.Values();
    ValuesOfKeyedDistinct(active);
    AtStepFilterDistinct(vs, name);
    var f := AtStepFilter(vs, name);
    MapByIdValuesOfDistinct(f);
    var m := StepProcesses(active, name);
    forall k ensures m.Get(k) ==
      (if k in active.entries && AtStep(active.entries[k], name) then Some(active.entries[k]) else None)
    {
      MapByIdDomain(f, k);
      if k in active.entries {
        var j :| 0 <= j < |active.keys| && active.keys[j] == k;
        AtStepFilterMember(vs, name, vs[j]);
      }
      if k in m.entries {
        var i :| 0 <= i < |f| && IdKey(f[i]) == k;
        MapByIdEntriesOfDistinct(f, i);
        AtStepFilterMember(vs, name, f[i]);
        var j :| 0 <= j < |vs| && vs[j] == f[i];
        assert active.keys[j] == k;
      }
    }
  }

  // ---------------------------------------------------------------------------
  // getProcessBriefsFromRequestElements

  /** IListItem for a process. */
  datatype Brief = Brief(header: string, subheader: string, body: string, id: Option<Value>, selectable: bool)

  /** `authorName || artist || composer || "unknown artist"`. */
  function AuthorOf(work: Element): string
  {
    if Truthy(Get(work, "authorName")) then ValueToString(work["authorName"])
    else if Truthy(Get(work, "artist")) then ValueToString(work["artist"])
    else if Truthy(Get(work, "composer")) then ValueToString(work["composer"])
    else "unknown artist"
  }

  /** A set author name decides the author: no other field of the work,
      artist and composer included, changes it. */
  lemma AuthorNameFirst(work: Element, field: string, v: Value)
    requires Truthy(Get(work, "authorName")) && field != "authorName"
    ensures AuthorOf(work[field := v]) == AuthorOf(work) == ValueToString(work["authorName"])
  {
    assert Get(work[field := v], "authorName") == Get(work, "authorName");
  }

  /** Without an author name, a set artist decides the author, whatever the
      composer or any other field says. */
  lemma ArtistBeforeComposer(work: Element, field: string, v: Value)
    requires !Truthy(Get(work, "authorName")) && Truthy(Get(work, "artist"))
    requires field != "authorName" && field != "artist"
    ensures AuthorOf(work[field := v]) == AuthorOf(work) == ValueToString(work["artist"])
  {
    assert Get(work[field := v], "authorName") == Get(work, "authorName");
    assert Get(work[field := v], "artist") == Get(work, "artist");
  }

  /** A process's brief can be built when its work and project are cached and
      both its step and the step before it are in the table. */
  predicate Resolvable(process: Element, works: ObsMap, projects: ObsMap, steps: StepTable)
  {
    && works.Get(OptToString(Get(process, "workId"))).Some?
    && projects.Get(OptToString(Get(process, "projectId"))).Some?
    && GetStep(steps, StepKey(process)).Some?
    && GetStepById(steps, GetStep(steps, StepKey(process)).value.orderId - 1).Some?
  }

  /** The list row of a process whose work, project and previous step are known. */
  function MakeBrief(process: Element, work: Element, project: Element, previous: Step): Brief
  {
    var date := Get(process, previous.submissionDateFieldName);
    Brief(
      OrEmpty(Get(project, "department")) + " " + OrEmpty(Get(work, "type")) + " Process",
      "submitted to " + OptToString(Get(process, "step")) + " on "
        + (if Truthy(date) then ValueToString(date.value) else "an unknown date"),
      OptToString(Get(work, "Title")) + " - " + AuthorOf(work),
      Get(process, "Id"),
      true)
  }

  /** The brief of one process; reading a property of a missing work, project,
      step or previous step throws. */
  function BriefOf(process: Element, works: ObsMap, projects: ObsMap, steps: StepTable): Try<Brief>
  {
    match (works.Get(OptToString(Get(process, "workId"))), projects.Get(OptToString(Get(process, "projectId"))))
    case (Some(work), Some(project)) =>
      (match GetStep(steps, StepKey(process))
       case None => Throws
       case Some(current) =>
         match GetStepById(steps, current.orderId - 1)
         case None => Throws
         case Some(previous) => Ok(MakeBrief(process, work, project, previous)))
    case _ => Throws
  }

  /** A brief is built exactly for a resolvable process. It carries the
      process's Id and is selectable. Its header names the cached project's
      department and the cached work's type; its subheader names the step
      and the date the step before it was submitted; its body names the
      work's title and its first known author. */
  lemma BriefOfSpec(process: Element, works: ObsMap, projects: ObsMap, steps: StepTable)
    ensures BriefOf(process, works, projects, steps).Ok? <==> Resolvable(process, works, projects, steps)
    ensures BriefOf(process, works, projects, steps).Ok? ==>
      var b := BriefOf(process, works, projects, steps).value;
      var work := works.Get(OptToString(Get(process, "workId"))).value;
      var project := projects.Get(OptToString(Get(process, "projectId"))).value;
      var previous := GetStepById(steps, GetStep(steps, StepKey(process)).value.orderId - 1).value;
      var date := Get(process, previous.submissionDateFieldName);
      && b.id == Get(process, "Id")
      && b.selectable
      && b.header == OrEmpty(Get(project, "department")) + " " + OrEmpty(Get(work, "type")) + " Process"
      && b.subheader == "submitted to " + StepKey(process) + " on "
           + (if Truthy(date) then ValueToString(date.value) else "an unknown date")
      && b.body == OptToString(Get(work, "Title")) + " - " + AuthorOf(work)
  {
  }

  /** The briefs of a list of processes, in order; one failing brief makes the
      whole map throw. */
  function BriefsOf(vs: seq<Element>, works: ObsMap, projects: ObsMap, steps: StepTable): Try<seq<Brief>>
  {
    MapTry(vs, (p: Element) => BriefOf(p, works, projects, steps))
  }

  /** A list of briefs is built exactly when every process resolves, and then
      holds each process's own brief in order. */
  lemma BriefsOfResolvable(vs: seq<Element>, works: ObsMap, projects: ObsMap, steps: StepTable)
    ensures BriefsOf(vs, works, projects, steps).Ok? <==> forall i :: 0 <= i < |vs| ==> Resolvable(vs[i], works, projects, steps)
    ensures BriefsOf(vs, works, projects, steps).Ok? ==>
      var bs := BriefsOf(vs, works, projects, steps).value;
      && |bs| == |vs|
      && (forall i :: 0 <= i < |vs| ==> bs[i] == BriefOf(vs[i], works, projects, steps).value)
      && (forall i :: 0 <= i < |vs| ==> bs[i].selectable && bs[i].id == Get(vs[i], "Id"))
  {
    forall i | 0 <= i < |vs| ensures BriefOf(vs[i], works, projects, steps).Ok? <==> Resolvable(vs[i], works, projects, steps) {
      BriefOfSpec(vs[i], works, projects, steps);
    }
  }

  /** What the projector yields: nothing while a cache is not loaded, a TypeError
      when some process does not resolve, or the briefs. */
  datatype Projection = NotLoaded | LookupFault | Ready(briefs: seq<Brief>)

  /** getProcessBriefsFromRequestElements. */
  function ProjectBriefs(processes: Option<ObsMap>, works: Option<ObsMap>, projects: Option<ObsMap>, steps: StepTable): (r: Projection)
    requires processes.Some? ==> processes.value.Valid()
    ensures r.NotLoaded? <==> processes.None? || works.None? || projects.None?
    ensures !r.NotLoaded? ==>
      (r.Ready? <==> forall i :: 0 <= i < |processes.value.keys| ==>
                       Resolvable(processes.value.Values()[i], works.value, projects.value, steps))
    ensures r.Ready? ==> |r.briefs| == |processes.value.keys|
    ensures r.Ready? ==> forall i :: 0 <= i < |r.briefs| ==> r.briefs[i].selectable && r.briefs[i].id == Get(processes.value.Values()[i], "Id")
  {
    if processes.Some? && works.Some? && projects.Some? then
      var vs := processes.value.Values();
      BriefsOfResolvable(vs, works.value, projects.value, steps);
      match BriefsOf(vs, works.value, projects.value, steps)
      case Throws => LookupFault
      case Ok(bs) => Ready(bs)
    else NotLoaded
  }

  /** Each brief of a projected list is the brief of the process at the same
      place in the cache, so it carries that process's work title and author. */
  lemma ProjectBriefsEach(processes: ObsMap, works: ObsMap, projects: ObsMap, steps: StepTable, i: int)
    requires processes.Valid()
    requires ProjectBriefs(Some(processes), Some(works), Some(projects), steps).Ready?
    requires 0 <= i < |processes.keys|
    ensures ProjectBriefs(Some(processes), Some(works), Some(projects), steps).briefs[i]
         == BriefOf(processes.Values()[i], works, projects, steps).value
  {
    BriefsOfResolvable(processes.Values(), works, projects, steps);
  }

  /** Selecting a brief finds the process it was built from: `String(brief.id)`
      is the key of that process in a cache keyed by Id. */
  lemma SelectBriefFindsProcess(processes: ObsMap, works: Option<ObsMap>, projects: Option<ObsMap>, steps: StepTable, i: int)
    requires processes.Valid() && KeyedById(processes)
    requires ProjectBriefs(Some(processes), works, projects, steps).Ready?
    requires 0 <= i < |processes.keys|
    ensures var b := ProjectBriefs(Some(processes), works, projects, steps).briefs[i];
      processes.Get(OptToString(b.id)) == Some(processes.Values()[i])
  {
    ValuesOfKeyedDistinct(processes);
  }

  // ---------------------------------------------------------------------------
  // submitSelectedProcess: the process that is sent

  /** No stamp field of a step collides with another or with "step" or "Id". */
  predicate SeparateStampFields(s: Step)
  {
    && s.submitterFieldName != s.submissionDateFieldName
    && s.submitterFieldName !in {"step", "Id"}
    && s.submissionDateFieldName !in {"step", "Id"}
  }

  /** `{...process, step: next, [dateField]: now, [submitterField]: user}`: the
      process advanced to the next step and stamped for the step just done.
      An unknown step or a missing successor throws. */
  function Advance(process: Element, steps: StepTable, now: string, userName: string): (r: Try<Element>)
    ensures r.Ok? <==> GetStep(steps, StepKey(process)).Some? && NextStep(steps, StepKey(process)).Some?
    ensures r.Ok? ==>
      var cur := GetStep(steps, StepKey(process)).value;
      && Get(r.value, cur.submitterFieldName) == Some(Str(userName))
      && (cur.submissionDateFieldName != cur.submitterFieldName ==>
            Get(r.value, cur.submissionDateFieldName) == Some(Str(now)))
      && (SeparateStampFields(cur) ==>
            && Get(r.value, "step") == Some(Str(NextStep(steps, StepKey(process)).value.name))
            && Get(r.value, "Id") == Get(process, "Id")
            && IdKey(r.value) == IdKey(process))
      && forall f :: f !in {"step", cur.submitterFieldName, cur.submissionDateFieldName} ==> Get(r.value, f) == Get(process, f)
  {
    match (GetStep(steps, StepKey(process)), NextStep(steps, StepKey(process)))
    case (Some(cur), Some(next)) =>
      Ok(process["step" := Str(next.name)][cur.submissionDateFieldName := Str(now)][cur.submitterFieldName := Str(userName)])
    case _ => Throws
  }

  // ---------------------------------------------------------------------------
  // getSelectedProcessSubmissionMetadata

  /** "submitted by X on D" for the step owning the control's field when the
      selected process records both a submitter and a date, null otherwise.
      An unknown field or a missing selection throws. */
  function SubmissionMetadata(steps: StepTable, dataRef: string, selectedProcess: Option<Element>): (r: Try<Option<string>>)
    ensures r.Ok? <==> StepForFieldName(steps, dataRef).Some? && selectedProcess.Some?
    ensures r.Ok? ==>
      var parent := StepForFieldName(steps, dataRef).value;
      var submitter := Get(selectedProcess.value, parent.submitterFieldName);
      var date := Get(selectedProcess.value, parent.submissionDateFieldName);
      && (r.value.Some? <==> Truthy(submitter) && Truthy(date))
      && (r.value.Some? ==> r.value.value == "submitted by " + ValueToString(submitter.value) + " on " + ValueToString(date.value))
  {
    match (StepForFieldName(steps, dataRef), selectedProcess)
    case (Some(parent), Some(p)) =>
      var submitter := Get(p, parent.submitterFieldName);
      var date := Get(p, parent.submissionDateFieldName);
      if Truthy(submitter) && Truthy(date) then
        Ok(Some("submitted by " + ValueToString(submitter.value) + " on " + ValueToString(date.value)))
      else Ok(None)
    case _ => Throws
  }

  /** Round trip of a submission: once a process has been advanced past step S
      by a user at a time (both non-empty), the metadata shown for either of
      S's stamp fields names that user and that time. */
  lemma MetadataAfterAdvance(process: Element, steps: StepTable, now: string, userName: string, field: string)
    requires DistinctStampFields(steps)
    requires Advance(process, steps, now, userName).Ok?
    requires SeparateStampFields(GetStep(steps, StepKey(process)).value)
    requires field == GetStep(steps, StepKey(process)).value.submitterFieldName
          || field == GetStep(steps, StepKey(process)).value.submissionDateFieldName
    requires now != "" && userName != ""
    ensures SubmissionMetadata(steps, field, Some(Advance(process, steps, now, userName).value))
         == Ok(Some("submitted by " + userName + " on " + now))
  {
    var cur := GetStep(steps, StepKey(process)).value;
    var k :| 0 <= k < |steps| && steps[k] == cur;
    OwnStampField(steps, k, field);
    var advanced := Advance(process, steps, now, userName).value;
    MetadataOfStamped(steps, field, cur, advanced, userName, now);
  }

  /** A record stamped for the step owning the field shows that stamp. */
  lemma MetadataOfStamped(steps: StepTable, field: string, owner: Step, p: Element, userName: string, now: string)
    requires StepForFieldName(steps, field) == Some(owner)
    requires Get(p, owner.submitterFieldName) == Some(Str(userName)) && userName != ""
    requires Get(p, owner.submissionDateFieldName) == Some(Str(now)) && now != ""
    ensures SubmissionMetadata(steps, field, Some(p)) == Ok(Some("submitted by " + userName + " on " + now))
  {
  }

  /** The header of a brief for a Film project's Music work. */
  lemma BriefHeaderExample(process: Element, work: Element, project: Element, previous: Step)
    requires Get(project, "department") == Some(Str("Film")) && Get(work, "type") == Some(Str("Music"))
    ensures MakeBrief(process, work, project, previous).header == "Film Music Process"
  {
  }

  // The worked projection: one Intake process of a Film project's Music work
  // "Song A" with no author and no recorded date, in a table where Intake
  // follows another step.

  const SongProcess: Element := map["Id" := Num(1), "workId" := Str("10"), "projectId" := Str("100"), "step" := Str("Intake")]
  const SongWork: Element := map["Id" := Num(10), "Title" := Str("Song A"), "type" := Str("Music")]
  const SongProject: Element := map["Id" := Num(100), "department" := Str("Film")]
  const SongSteps: StepTable := [Step("Request", 0, "requestSubmitter", "requestDate", "Request"),
                                 Step("Intake", 1, "intakeSubmitter", "intakeDate", "Intake")]
  const SongBrief := Brief("Film Music Process", "submitted to Intake on an unknown date", "Song A - unknown artist",
                           Some(Num(1)), true)

  /** The example's work and project are found, and Intake's predecessor is Request. */
  lemma SongLookups()
    ensures ObsMap(["10"], map["10" := SongWork]).Get(OptToString(Get(SongProcess, "workId"))) == Some(SongWork)
    ensures ObsMap(["100"], map["100" := SongProject]).Get(OptToString(Get(SongProcess, "projectId"))) == Some(SongProject)
    ensures StepKey(SongProcess) == "Intake"
    ensures GetStep(SongSteps, "Intake") == Some(SongSteps[1])
    ensures GetStepById(SongSteps, 0) == Some(SongSteps[0])
  {
    assert FindIndex(SongSteps, (s: Step) => s.name == "Intake") == 1;
    assert FindIndex(SongSteps, (s: Step) => s.orderId == 0) == 0;
  }

  /** The example's brief, built from its work, project and previous step. */
  lemma SongMakeBrief()
    ensures MakeBrief(SongProcess, SongWork, SongProject, SongSteps[0]) == SongBrief
  {
    var b := MakeBrief(SongProcess, SongWork, SongProject, SongSteps[0]);
    SongHeader();
    SongSubheader();
    SongBody();
    assert b.id == Some(Num(1));
  }

  /** The header reads "<department> <type> Process". */
  lemma SongHeader()
    ensures OrEmpty(Get(SongProject, "department")) + " " + OrEmpty(Get(SongWork, "type")) + " Process" == "Film Music Process"
  {
    assert OrEmpty(Get(SongProject, "department")) == "Film";
    assert OrEmpty(Get(SongWork, "type")) == "Music";
  }

  /** No date is recorded for Request, so the date is unknown. */
  lemma SongSubheader()
    ensures var date := Get(SongProcess, SongSteps[0].submissionDateFieldName);
      "submitted to " + OptToString(Get(SongProcess, "step")) + " on "
        + (if Truthy(date) then ValueToString(date.value) else "an unknown date")
      == "submitted to Intake on an unknown date"
  {
    assert Get(SongProcess, "requestDate") == None;
    assert OptToString(Get(SongProcess, "step")) == "Intake";
  }

  /** No author field is set, so the author is unknown. */
  lemma SongBody()
    ensures OptToString(Get(SongWork, "Title")) + " - " + AuthorOf(SongWork) == "Song A - unknown artist"
  {
    assert OptToString(Get(SongWork, "Title")) == "Song A";
    assert AuthorOf(SongWork) == "unknown artist";
  }

  /** The example's single brief. */
  lemma SongABrief()
    ensures BriefOf(SongProcess, ObsMap(["10"], map["10" := SongWork]), ObsMap(["100"], map["100" := SongProject]), SongSteps)
      == Ok(SongBrief)
  {
    SongLookups();
    SongMakeBrief();
  }

  /** The example's process cache holds just its process. */
  lemma SongProcessCache()
    ensures ObsMap(["1"], map["1" := SongProcess]).Valid()
    ensures ObsMap(["1"], map["1" := SongProcess]).Values() == [SongProcess]
  {
  }

  /** Mapping the one process gives the one brief. */
  lemma SongBriefs()
    ensures BriefsOf([SongProcess], ObsMap(["10"], map["10" := SongWork]), ObsMap(["100"], map["100" := SongProject]), SongSteps)
      == Ok([SongBrief])
  {
    var works := ObsMap(["10"], map["10" := SongWork]);
    var projects := ObsMap(["100"], map["100" := SongProject]);
    SongABrief();
    BriefOfSpec(SongProcess, works, projects, SongSteps);
    BriefsOfResolvable([SongProcess], works, projects, SongSteps);
    var bs := BriefsOf([SongProcess], works, projects, SongSteps).value;
    assert bs == [bs[0]];
  }

  /** The projector over the example's caches yields exactly the one brief. */
  lemma SongAProjection()
    ensures ProjectBriefs(Some(ObsMap(["1"], map["1" := SongProcess])), Some(ObsMap(["10"], map["10" := SongWork])),
                          Some(ObsMap(["100"], map["100" := SongProject])), SongSteps)
      == Ready([SongBrief])
  {
    SongProcessCache();
    SongBriefs();
  }
}
