/** The entity caches: MobX observable maps from `String(Id)` to request
    element, with the insertion order that `values()` follows. */
module Caches {
  import opened Wrappers
  import opened Elements

  /** An insertion-ordered map: `keys` lists each key once, in the order it was
      first set; `entries` holds the current value of each key. */
  datatype ObsMap = ObsMap(keys: seq<string>, entries: map<string, Element>) {

    ghost predicate Valid()
    {
      && (forall i, j :: 0 <= i < j < |keys| ==> keys[i] != keys[j])
      && (forall k :: k in entries <==> k in keys)
    }

    /** `map.get(k)`. */
    function Get(k: string): Option<Element>
    {
      if k in entries then Some(entries[k]) else None
    }

    /** `map.set(k, v)`: a new key goes to the end, an existing key keeps its place. */
    function Set(k: string, v: Element): (r: ObsMap)
      requires Valid()
      ensures r.Valid()
      ensures r.Get(k) == Some(v)
      ensures forall k' :: k' != k ==> r.Get(k') == Get(k')
      ensures k in entries ==> r.keys == keys
      ensures k !in entries ==> r.keys == keys + [k]
    {
      if k in entries then ObsMap(keys, entries[k := v]) else ObsMap(keys + [k], entries[k := v])
    }

    /** `map.values()`, in insertion order. */
    function Values(): (vs: seq<Element>)
      requires Valid()
      ensures |vs| == |keys|
      ensures forall i :: 0 <= i < |keys| ==> vs[i] == entries[keys[i]]
    {
      seq(|keys|, i requires 0 <= i < |keys| && keys[i] in entries => entries[keys[i]])
    }
  }

  const Empty: ObsMap := ObsMap([], map[])

  /** `observable.map(x)` for a value read from a cache: a copy of the element,
      or an empty record when the lookup found nothing. */
  function CopyOf(found: Option<Element>): (r: Element)
    ensures found.Some? ==> r == found.value
    ensures found.None? ==> |r| == 0
  {
    match found
    case Some(e) => e
    case None => map[]
  }

  /** Every cached element sits under the key `String(element.Id)`. */
  ghost predicate KeyedById(m: ObsMap)
  {
    forall k :: k in m.entries ==> IdKey(m.entries[k]) == k
  }

  /** No two elements of the list share an Id key. */
  ghost predicate DistinctIds(list: seq<Element>)
  {
    forall i, j :: 0 <= i < j < |list| ==> IdKey(list[i]) != IdKey(list[j])
  }

  /** StoreUtils.mapRequestElementArrayById: sets every element of the list
      under `String(e.Id)`, in list order, so a later duplicate overwrites an
      earlier one. */
  function MapById(list: seq<Element>): (m: ObsMap)
    ensures m.Valid() && KeyedById(m)
  {
    if list == [] then Empty
    else
      var last := list[|list| - 1];
      MapById(list[..|list| - 1]).Set(IdKey(last), last)
  }

  /** The Id keys of a list, in order. */
  function IdKeys(list: seq<Element>): (r: seq<string>)
    ensures |r| == |list| && forall i :: 0 <= i < |list| ==> r[i] == IdKey(list[i])
  {
    if list == [] then [] else IdKeys(list[..|list| - 1]) + [IdKey(list[|list| - 1])]
  }

  lemma {:induction false} MapByIdKeys(list: seq<Element>, k: string)
    ensures k in MapById(list).entries <==> k in IdKeys(list)
  {
    if list != [] {
      MapByIdKeys(list[..|list| - 1], k);
    }
  }

  /** A key is cached exactly when some element of the list has that Id key. */
  lemma MapByIdDomain(list: seq<Element>, k: string)
    ensures k in MapById(list).entries <==> exists i :: 0 <= i < |list| && IdKey(list[i]) == k
  {
    MapByIdKeys(list, k);
    var ks := IdKeys(list);
    assert k in ks <==> exists i :: 0 <= i < |ks| && ks[i] == k;
  }

  /** Read-your-writes on a cache: a point-replace keyed by the element's own
      Id keeps the cache keyed by Id and makes `get` return the new element. */
  lemma ReplaceKeepsKeyed(m: ObsMap, e: Element)
    requires m.Valid() && KeyedById(m)
    ensures var r := m.Set(IdKey(e), e);
      r.Valid() && KeyedById(r) && r.Get(IdKey(e)) == Some(e)
  {
  }

  lemma DistinctPrefix(list: seq<Element>)
    requires list != [] && DistinctIds(list)
    ensures DistinctIds(list[..|list| - 1])
    ensures forall i :: 0 <= i < |list| - 1 ==> IdKey(list[i]) != IdKey(list[|list| - 1])
  {
    var init := list[..|list| - 1];
    forall i, j | 0 <= i < j < |init| ensures IdKey(init[i]) != IdKey(init[j]) {
      assert init[i] == list[i] && init[j] == list[j];
    }
  }

  /** When the Ids of the list are distinct, the keys are the list's Id keys
      in list order. */
  lemma {:induction false} MapByIdKeysOfDistinct(list: seq<Element>)
    requires DistinctIds(list)
    ensures MapById(list).keys == IdKeys(list)
  {
    if list != [] {
      var init := list[..|list| - 1];
      var last := list[|list| - 1];
      DistinctPrefix(list);
      MapByIdKeysOfDistinct(init);
      MapByIdKeys(init, IdKey(last));
      assert IdKey(last) !in IdKeys(init) by {
        forall i | 0 <= i < |init| ensures IdKeys(init)[i] != IdKey(last) {
          assert init[i] == list[i];
        }
      }
    }
  }

  /** When the Ids of the list are distinct, each element is cached under its
      own Id key. */
  lemma {:induction false} MapByIdEntriesOfDistinct(list: seq<Element>, i: int)
    requires DistinctIds(list) && 0 <= i < |list|
    ensures MapById(list).Get(IdKey(list[i])) == Some(list[i])
  {
    var init := list[..|list| - 1];
    if i < |list| - 1 {
      DistinctPrefix(list);
      MapByIdEntriesOfDistinct(init, i);
      assert init[i] == list[i];
    }
  }

  /** When the Ids of the list are distinct, `values()` of the cache built from
      it gives the list back, in order. */
  lemma MapByIdValuesOfDistinct(list: seq<Element>)
    requires DistinctIds(list)
    ensures MapById(list).Values() == list
  {
    MapByIdKeysOfDistinct(list);
    var m := MapById(list);
    forall i | 0 <= i < |list| ensures m.Values()[i] == list[i] {
      MapByIdEntriesOfDistinct(list, i);
    }
  }

  /** The values of a cache keyed by Id have pairwise distinct Id keys. */
  lemma ValuesOfKeyedDistinct(m: ObsMap)
    requires m.Valid() && KeyedById(m)
    ensures DistinctIds(m.Values())
    ensures forall i :: 0 <= i < |m.keys| ==> IdKey(m.Values()[i]) == m.keys[i]
  {
  }
}
