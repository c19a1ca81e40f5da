/** Form controls and the view tables the stores take from the resource
    loader. Loading views from configuration and the per-field validator are
    not part of this model: the stores receive them as functions. */
module Forms {
  import opened Wrappers
  import opened Elements

  /** IFormControl: the field a control edits, whether it is required and its
      input type. */
  datatype FormControl = FormControl(dataRef: string, required: bool, kind: string)

  type Form = seq<FormControl>

  /** `getView(name).formControls` (or the read-only variant); an undefined
      view name is passed as None. */
  type ViewTable = Option<string> -> Form

  /** StoreUtils.validateFormControlGroup: the error messages of a form for a
      record, one entry per field that has an error. */
  type GroupValidator = (Form, Element) -> map<string, string>

  /** validateFormControl: an error message for a value, or None when valid. */
  type ControlValidator = (FormControl, Value) -> Option<string>

  /** `Utils.isObjectEmpty(validation)`. */
  predicate NoErrors(errors: map<string, string>)
  {
    |errors| == 0
  }

  /** The view name a record's "type" field selects (`get("type") as string`). */
  function TypeName(e: Element): Option<string>
  {
    match Get(e, "type")
    case None => None
    case Some(v) => Some(ValueToString(v))
  }
}
