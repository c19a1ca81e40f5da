/** The employee view hierarchy: a stack of the nested pages visited, from the
    dashboard (first) to the page shown (last), and the breadcrumbs derived
    from it. */
module Navigation {
  import opened Wrappers
  import opened Elements
  import opened Lists

  /** EmployeeViewKey. */
  datatype ViewKey = Dashboard | ProcessDetail

  /** The enum's string value, which is what `indexOf` compares. */
  function KeyString(k: ViewKey): string
  {
    match k
    case Dashboard => "DASHBOARD"
    case ProcessDetail => "PROCESS_DETAIL"
  }

  lemma KeyStringInjective(a: ViewKey, b: ViewKey)
    ensures KeyString(a) == KeyString(b) <==> a == b
  {
  }

  /** `viewHierarchy.indexOf(key)`: the first position whose key has that
      string value, or -1. */
  function PositionOf(stack: seq<ViewKey>, key: string): int
  {
    FindIndex(stack, (k: ViewKey) => KeyString(k) == key)
  }

  predicate Occurs(stack: seq<ViewKey>, key: string)
  {
    exists i :: 0 <= i < |stack| && KeyString(stack[i]) == key
  }

  /** reduceViewHierarchy: `slice(0, indexOf(key) + 1)`. */
  function ReduceTo(stack: seq<ViewKey>, key: string): seq<ViewKey>
  {
    stack[..PositionOf(stack, key) + 1]
  }

  /** Reducing to a key on the stack keeps the prefix up to and including its
      first occurrence, so the stack ends at that key; reducing to a key that
      is not on the stack empties it. */
  lemma ReduceToSpec(stack: seq<ViewKey>, key: string)
    ensures var r := ReduceTo(stack, key);
      && (Occurs(stack, key) ==>
            && 0 < |r| <= |stack| && r == stack[..|r|]
            && KeyString(r[|r| - 1]) == key
            && forall i :: 0 <= i < |r| - 1 ==> KeyString(r[i]) != key)
      && (!Occurs(stack, key) ==> r == [])
  {
    var p := PositionOf(stack, key);
    assert Occurs(stack, key) <==> p != -1;
  }

  /** extendViewHierarchy: push a key on top. */
  function Extend(stack: seq<ViewKey>, key: ViewKey): (r: seq<ViewKey>)
    ensures |r| == |stack| + 1 && r[..|stack|] == stack && CurrentView(r) == Some(key)
  {
    stack + [key]
  }

  /** Navigating back to a page already on the stack undoes a push. */
  lemma ReduceAfterExtend(stack: seq<ViewKey>, pushed: ViewKey, key: string)
    requires Occurs(stack, key)
    ensures ReduceTo(Extend(stack, pushed), key) == ReduceTo(stack, key)
  {
    var s' := Extend(stack, pushed);
    var p := PositionOf(stack, key);
    var p' := PositionOf(s', key);
    assert forall i :: 0 <= i < |stack| ==> s'[i] == stack[i];
    assert p' == p;
  }

  /** Reducing twice to the same key is the same as reducing once. */
  lemma ReduceIdempotent(stack: seq<ViewKey>, key: string)
    ensures ReduceTo(ReduceTo(stack, key), key) == ReduceTo(stack, key)
  {
    ReduceToSpec(stack, key);
    var r := ReduceTo(stack, key);
    if Occurs(stack, key) {
      ReduceToSpec(r, key);
      assert Occurs(r, key) by { assert KeyString(r[|r| - 1]) == key; }
      var p := PositionOf(r, key);
      assert p == |r| - 1;
    }
  }

  /** currentView: the last entry, undefined on an empty stack. */
  function CurrentView(stack: seq<ViewKey>): Option<ViewKey>
  {
    if stack == [] then None else Some(stack[|stack| - 1])
  }

  /** IBreadcrumbItem without its click handler, which is `reduceViewHierarchy(key)`. */
  datatype Crumb = Crumb(text: string, key: ViewKey, isCurrentItem: bool)

  /** The label of a stack entry. The detail label reads the selected process,
      which throws when there is no selection. */
  function CrumbText(key: ViewKey, selectedProcess: Option<Element>): Try<string>
  {
    match key
    case Dashboard => Ok("Processor Dashboard")
    case ProcessDetail =>
      match selectedProcess
      case None => Throws
      case Some(p) => Ok(OrEmpty(Get(p, "type")) + " Process " + OrEmpty(Get(p, "Id")) + " Detail")
  }

  /** The crumb of one stack entry, flagged current when its key equals `current`. */
  function CrumbOf(key: ViewKey, current: Option<ViewKey>, selectedProcess: Option<Element>): Try<Crumb>
  {
    match CrumbText(key, selectedProcess)
    case Throws => Throws
    case Ok(text) => Ok(Crumb(text, key, current == Some(key)))
  }

  /** breadcrumbItems. */
  function Breadcrumbs(stack: seq<ViewKey>, selectedProcess: Option<Element>): (r: Try<seq<Crumb>>)
    ensures r.Throws? <==> ProcessDetail in stack && selectedProcess.None?
    ensures r.Ok? ==> |r.value| == |stack|
    ensures r.Ok? ==> forall i :: 0 <= i < |stack| ==>
      && r.value[i].key == stack[i]
      && (r.value[i].isCurrentItem <==> CurrentView(stack) == Some(stack[i]))
      && (stack[i] == Dashboard ==> r.value[i].text == "Processor Dashboard")
      && (stack[i] == ProcessDetail ==>
            r.value[i].text == OrEmpty(Get(selectedProcess.value, "type")) + " Process "
                               + OrEmpty(Get(selectedProcess.value, "Id")) + " Detail")
  {
    var current := CurrentView(stack);
    var r := MapTry(stack, (k: ViewKey) => CrumbOf(k, current, selectedProcess));
    assert ProcessDetail in stack ==> exists i :: 0 <= i < |stack| && stack[i] == ProcessDetail;
    r
  }

  /** The stack is empty or has the dashboard at its root. */
  predicate Rooted(stack: seq<ViewKey>)
  {
    stack == [] || stack[0] == Dashboard
  }

  /** On a rooted, non-empty stack, reducing to the dashboard leaves just the
      dashboard; reducing keeps a stack rooted. */
  lemma ReduceToDashboard(stack: seq<ViewKey>, key: string)
    requires Rooted(stack)
    ensures Rooted(ReduceTo(stack, key))
    ensures stack != [] ==> ReduceTo(stack, KeyString(Dashboard)) == [Dashboard]
  {
    if stack != [] {
      assert PositionOf(stack, KeyString(Dashboard)) == 0;
    }
  }
}
