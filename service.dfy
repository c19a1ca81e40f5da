/** The data-service boundary. Its transport is not part of this model: a
    store command records each call it makes, in order, and receives each
    call's outcome as a parameter. */
module Service {
  import opened Wrappers
  import opened Elements
  import opened Notes
  import opened Session

  /** ListName: the server list a request element lives in. */
  datatype ListName = Projects | Works | Processes

  datatype Call =
    | FetchEmployeeActiveProcesses(employee: User)
    | FetchRequestElementsById(ids: seq<Option<int>>, listName: ListName)
    | UpdateRequestElement(element: Element, listName: ListName)
    | SearchProcessesByTitle(term: string)
    | FetchNotes(source: NoteSource, scope: NoteScope, entityId: Option<Value>, submitterId: Option<Value>)
    | CreateNote(note: Note)
    | UpdateNote(note: Note)
    | DeleteNote(id: Option<int>)
    | CreateProject(project: Element)
    | CreateWork(work: Element)
    | CreateProcess(process: Element)

  /** `list.map(e => Number(e[field]))`; None stands for NaN. */
  function NumbersOf(list: seq<Element>, field: string): (ids: seq<Option<int>>)
    ensures |ids| == |list|
    ensures forall i :: 0 <= i < |list| ==> ids[i] == NumberOf(Get(list[i], field))
  {
    seq(|list|, i requires 0 <= i < |list| => NumberOf(Get(list[i], field)))
  }
}
