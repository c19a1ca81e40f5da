/** Notes attached to a project or a work, and the list updates the employee
    store performs on its in-memory note lists. */
module Notes {
  import opened Wrappers
  import opened Elements
  import opened Lists

  datatype NoteSource = ProjectSource | WorkSource

  /** Whether the client may see the note or only employees. */
  datatype NoteScope = ClientScope | EmployeeScope

  /** INote, with the fields the store reads and writes. */
  datatype Note = Note(
    id: Option<int>,
    dateSubmitted: string,
    submitter: string,
    scope: NoteScope,
    attachedClientId: Option<Value>,
    projectId: Option<string>,
    workId: Option<string>,
    text: string)

  /** `list.unshift(note)`. */
  function Prepend(note: Note, list: seq<Note>): (r: seq<Note>)
    ensures |r| == |list| + 1 && r[0] == note && r[1..] == list
  {
    [note] + list
  }

  /** Index k holds the first note of the list with the given Id. */
  predicate FirstWithId(list: seq<Note>, id: Option<int>, k: int)
  {
    && 0 <= k < |list| && list[k].id == id
    && forall j :: 0 <= j < k ==> list[j].id != id
  }

  /** StoreUtils.replaceElementInListById on a note list: the first note with
      the same Id is overwritten. */
  function ReplaceNote(note: Note, list: seq<Note>): (r: Replaced<Note>)
    ensures r.found <==> exists i :: 0 <= i < |list| && list[i].id == note.id
    ensures !r.found ==> r.list == list
    ensures r.found ==> |r.list| == |list| && note in r.list
    ensures forall i :: 0 <= i < |list| && list[i].id != note.id ==> r.list[i] == list[i]
    ensures r.found ==> exists k :: FirstWithId(list, note.id, k) && r.list == list[k := note]
  {
    var matches := (n: Note) => n.id == note.id;
    var k := FindIndex(list, matches);
    var r := ReplaceFirst(list, note, matches);
    assert r.found ==> FirstWithId(list, note.id, k) && r.list == list[k := note];
    r
  }

  /** removeELementInListById AS WRITTEN: the search compares each note's Id
      with itself, which holds for every note, and the result is spliced. */
  function RemoveNoteAsWritten(target: Note, list: seq<Note>): seq<Note>
  {
    SpliceOne(list, FindIndex(list, (n: Note) => n.id == n.id))
  }

  /** As written, removal drops the first note whatever the target, and an
      empty list stays empty (splice at -1 of nothing removes nothing). */
  lemma RemoveAsWrittenDropsFirst(target: Note, list: seq<Note>)
    ensures list == [] ==> RemoveNoteAsWritten(target, list) == []
    ensures list != [] ==> RemoveNoteAsWritten(target, list) == list[1..]
  {
    if list != [] {
      assert FindIndex(list, (n: Note) => n.id == n.id) == 0;
    }
  }

  /** Deleting the second of two notes with distinct Ids removes the first and
      keeps the one that was deleted on the server. */
  lemma RemoveAsWrittenKeepsTarget()
    ensures var a := Note(Some(1), "", "", EmployeeScope, None, None, None, "first");
      var b := Note(Some(2), "", "", EmployeeScope, None, None, None, "second");
      RemoveNoteAsWritten(b, [a, b]) == [b]
  {
    var a := Note(Some(1), "", "", EmployeeScope, None, None, None, "first");
    var b := Note(Some(2), "", "", EmployeeScope, None, None, None, "second");
    RemoveAsWrittenDropsFirst(b, [a, b]);
  }

  /** No two notes of the list share an Id. */
  ghost predicate DistinctNoteIds(list: seq<Note>)
  {
    forall i, j :: 0 <= i < j < |list| ==> list[i].id != list[j].id
  }

  /** The corrected removal: drop the first note whose Id equals the target's
      Id, and leave the list alone when there is none. */
  function RemoveNoteById(target: Note, list: seq<Note>): (r: seq<Note>)
    ensures (exists i :: 0 <= i < |list| && list[i].id == target.id) ==> |r| == |list| - 1
    ensures (forall i :: 0 <= i < |list| ==> list[i].id != target.id) ==> r == list
    ensures forall n: Note :: n.id != target.id ==> multiset(r)[n] == multiset(list)[n]
    ensures DistinctNoteIds(list) ==> forall i :: 0 <= i < |r| ==> r[i].id != target.id
  {
    var k := FindIndex(list, (n: Note) => n.id == target.id);
    if k == -1 then list
    else
      assert list == list[..k] + [list[k]] + list[k + 1..];
      assert multiset(list) == multiset(list[..k]) + multiset{list[k]} + multiset(list[k + 1..]);
      var r := list[..k] + list[k + 1..];
      assert DistinctNoteIds(list) ==> forall i :: 0 <= i < |r| ==> r[i].id != target.id by {
        if DistinctNoteIds(list) {
          forall i | 0 <= i < |r| ensures r[i].id != target.id {
            if i < k { assert r[i] == list[i]; } else { assert r[i] == list[i + 1]; }
          }
        }
      }
      r
  }

  /** The new note after submitNewNote has filled it in, and whether every
      field could be filled. */
  datatype Stamped = Stamped(note: Note, complete: bool)

  /** submitNewNote's preparation of the note: date and submitter, the client
      id for a client-visible note, and the id of the project or work it is
      attached to. Reading the selection throws when it is absent; the fields
      set before that point stay set. */
  function StampNewNote(note: Note, source: NoteSource, now: string, userName: string,
                        process: Option<Element>, project: Option<Element>, work: Option<Element>): (r: Stamped)
    ensures r.note.dateSubmitted == now && r.note.submitter == userName
    ensures r.note.id == note.id && r.note.scope == note.scope && r.note.text == note.text
    ensures r.complete <==>
      && (note.scope == ClientScope ==> process.Some?)
      && (source == ProjectSource ==> project.Some?)
      && (source == WorkSource ==> work.Some?)
    ensures r.complete && note.scope == ClientScope ==> r.note.attachedClientId == Get(process.value, "submitterId")
    ensures r.complete && source == ProjectSource ==>
      r.note.projectId == Some(OptToString(Get(project.value, "Id"))) && r.note.workId == note.workId
    ensures r.complete && source == WorkSource ==>
      r.note.workId == Some(OptToString(Get(work.value, "Id"))) && r.note.projectId == note.projectId
  {
    var dated := note.(dateSubmitted := now, submitter := userName);
    if note.scope == ClientScope && process.None? then Stamped(dated, false)
    else
      var linked := if note.scope == ClientScope then dated.(attachedClientId := Get(process.value, "submitterId")) else dated;
      match source
      case ProjectSource =>
        if project.None? then Stamped(linked, false)
        else Stamped(linked.(projectId := Some(OptToString(Get(project.value, "Id")))), true)
      case WorkSource =>
        if work.None? then Stamped(linked, false)
        else Stamped(linked.(workId := Some(OptToString(Get(work.value, "Id")))), true)
  }
}
