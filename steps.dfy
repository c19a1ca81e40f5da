/** The step table the stores consult. The loader that builds it from the
    processing configuration is not part of this model; the table is given as
    a sequence of steps and looked up as `getStep`, `getStepById`,
    `getNextStepName` and `getStepForProcessFieldName` do. */
module Steps {
  import opened Wrappers
  import opened Lists

  /** IStep: a named stage with its position in the sequence, the process
      fields that record who submitted it and when, and the form view shown
      while a process is at this step. */
  datatype Step = Step(
    name: string,
    orderId: int,
    submitterFieldName: string,
    submissionDateFieldName: string,
    view: string)

  type StepTable = seq<Step>

  /** Names and order ids are unique across the table. */
  ghost predicate WellFormed(table: StepTable)
  {
    forall i, j :: 0 <= i < j < |table| ==>
      table[i].name != table[j].name && table[i].orderId != table[j].orderId
  }

  /** `getStep(name)`: undefined when no step has that name. */
  function GetStep(table: StepTable, name: string): (r: Option<Step>)
    ensures r.Some? <==> exists i :: 0 <= i < |table| && table[i].name == name
    ensures r.Some? ==> r.value in table && r.value.name == name
  {
    var i := FindIndex(table, (s: Step) => s.name == name);
    if i == -1 then None else Some(table[i])
  }

  /** `getStepById(orderId)`: undefined when no step has that position. */
  function GetStepById(table: StepTable, orderId: int): (r: Option<Step>)
    ensures r.Some? <==> exists i :: 0 <= i < |table| && table[i].orderId == orderId
    ensures r.Some? ==> r.value in table && r.value.orderId == orderId
  {
    var i := FindIndex(table, (s: Step) => s.orderId == orderId);
    if i == -1 then None else Some(table[i])
  }

  /** `getNextStepName(process)` for a process at step `name`: the step whose
      order id is one more. None covers both an unknown step and the terminal
      step, where the loader's behaviour is not part of this model. */
  function NextStep(table: StepTable, name: string): (r: Option<Step>)
  {
    match GetStep(table, name)
    case None => None
    case Some(current) => GetStepById(table, current.orderId + 1)
  }

  /** `getStepForProcessFieldName(field)`: the step that owns a submitter or
      submission-date field. */
  function StepForFieldName(table: StepTable, field: string): (r: Option<Step>)
    ensures r.Some? <==>
      exists i :: 0 <= i < |table| && (table[i].submitterFieldName == field || table[i].submissionDateFieldName == field)
    ensures r.Some? ==>
      r.value in table && (r.value.submitterFieldName == field || r.value.submissionDateFieldName == field)
  {
    var i := FindIndex(table, (s: Step) => s.submitterFieldName == field || s.submissionDateFieldName == field);
    if i == -1 then None else Some(table[i])
  }

  /** In a well-formed table every step is found by its own name and by its own
      order id. */
  lemma LookupOwnStep(table: StepTable, k: int)
    requires WellFormed(table) && 0 <= k < |table|
    ensures GetStep(table, table[k].name) == Some(table[k])
    ensures GetStepById(table, table[k].orderId) == Some(table[k])
  {
    var step := table[k];
    var i := FindIndex(table, (s: Step) => s.name == step.name);
    var j := FindIndex(table, (s: Step) => s.orderId == step.orderId);
    assert i == k && j == k;
  }

  /** No two steps share a submitter or submission-date field. */
  ghost predicate DistinctStampFields(table: StepTable)
  {
    forall i, j :: 0 <= i < j < |table| ==>
      && table[i].submitterFieldName != table[j].submitterFieldName
      && table[i].submitterFieldName != table[j].submissionDateFieldName
      && table[i].submissionDateFieldName != table[j].submitterFieldName
      && table[i].submissionDateFieldName != table[j].submissionDateFieldName
  }

  /** When stamp fields are not shared, a stamp field is owned by the step it
      belongs to. */
  lemma OwnStampField(table: StepTable, k: int, field: string)
    requires DistinctStampFields(table) && 0 <= k < |table|
    requires field == table[k].submitterFieldName || field == table[k].submissionDateFieldName
    ensures StepForFieldName(table, field) == Some(table[k])
  {
    var i := FindIndex(table, (s: Step) => s.submitterFieldName == field || s.submissionDateFieldName == field);
    assert i == k;
  }

  /** The successor of a step sits one place later in the order, and a step has
      a successor exactly when some step has the next order id. */
  lemma NextStepOrder(table: StepTable, name: string)
    requires GetStep(table, name).Some?
    ensures var cur := GetStep(table, name).value;
      && (NextStep(table, name).Some? <==> exists i :: 0 <= i < |table| && table[i].orderId == cur.orderId + 1)
      && (NextStep(table, name).Some? ==> NextStep(table, name).value.orderId == cur.orderId + 1)
  {
  }
}
