/** The few JavaScript array operations the stores rely on, with their
    ECMAScript semantics. */
module Lists {
  import opened Wrappers

  /** `list.findIndex(p)`: the first index whose element satisfies p, or -1. */
  function FindIndex<T>(s: seq<T>, p: T -> bool): (r: int)
    ensures -1 <= r < |s|
    ensures r == -1 <==> forall i :: 0 <= i < |s| ==> !p(s[i])
    ensures r >= 0 ==> p(s[r]) && forall i :: 0 <= i < r ==> !p(s[i])
  {
    if s == [] then -1
    else if p(s[0]) then 0
    else
      var r := FindIndex(s[1..], p);
      assert forall i :: 1 <= i < |s| ==> s[i] == s[1..][i - 1];
      if r == -1 then -1 else r + 1
  }

  /** `list.splice(start, 1)`: removes one element at `start`, where a
      negative start counts from the end and is clamped at 0, and a start at or
      past the end removes nothing. */
  function SpliceOne<T>(s: seq<T>, start: int): (r: seq<T>)
    ensures 0 <= start < |s| ==> r == s[..start] + s[start + 1..]
    ensures start == -1 && s != [] ==> r == s[..|s| - 1]
    ensures s == [] ==> r == []
  {
    var k := if start < 0 then (if |s| + start < 0 then 0 else |s| + start)
             else (if start > |s| then |s| else start);
    if k < |s| then s[..k] + s[k + 1..] else s
  }

  /** The list after a replace-by-Id, and whether a stale entry was found. */
  datatype Replaced<T> = Replaced(found: bool, list: seq<T>)

  /** Overwrite the first element that `matches`, keeping every other index;
      with no match the list is returned unchanged and `found` is false. */
  function ReplaceFirst<T>(s: seq<T>, item: T, matches: T -> bool): (r: Replaced<T>)
    ensures r.found <==> exists i :: 0 <= i < |s| && matches(s[i])
    ensures !r.found ==> r.list == s
    ensures r.found ==>
      var k := FindIndex(s, matches);
      && |r.list| == |s| && r.list[k] == item
      && forall i :: 0 <= i < |s| && i != k ==> r.list[i] == s[i]
  {
    var k := FindIndex(s, matches);
    if k != -1 then Replaced(true, s[k := item]) else Replaced(false, s)
  }

  /** `list.map(f)` where any call of f may throw: the results in order, or
      Throws when some call throws. */
  function MapTry<T, U>(vs: seq<T>, f: T -> Try<U>): (r: Try<seq<U>>)
    ensures r.Ok? <==> forall i :: 0 <= i < |vs| ==> f(vs[i]).Ok?
    ensures r.Ok? ==> |r.value| == |vs| && forall i :: 0 <= i < |vs| ==> r.value[i] == f(vs[i]).value
  {
    if vs == [] then Ok([])
    else
      var init := MapTry(vs[..|vs| - 1], f);
      var last := f(vs[|vs| - 1]);
      assert forall i :: 0 <= i < |vs| - 1 ==> vs[..|vs| - 1][i] == vs[i];
      if init.Throws? || last.Throws? then Throws else Ok(init.value + [last.value])
  }
}
