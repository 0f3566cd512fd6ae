/** Swift's `firstIndex(where: { $0.id == id })` over lists of identified values. */
module Collections {
  import opened Wrappers
  import opened Foundation

  /** The position of the first element whose id is `id`, or `None` when there is none. */
  function FirstIndex<T>(s: seq<T>, idOf: T -> Uuid, id: Uuid): (r: Option<nat>)
    ensures r.None? <==> forall j :: 0 <= j < |s| ==> idOf(s[j]) != id
    ensures r.Some? ==> r.value < |s| && idOf(s[r.value]) == id
    ensures r.Some? ==> forall j :: 0 <= j < r.value ==> idOf(s[j]) != id
  {
    if s == [] then None
    else if idOf(s[0]) == id then Some(0)
    else
      match FirstIndex(s[1..], idOf, id)
      case None => None
      case Some(k) => Some(k + 1)
  }

  /** A match found in `s` is still the first match once more elements follow. */
  lemma FirstIndexExtend<T>(s: seq<T>, t: seq<T>, idOf: T -> Uuid, id: Uuid)
    requires FirstIndex(s, idOf, id).Some?
    ensures FirstIndex(s + t, idOf, id) == FirstIndex(s, idOf, id)
  {
    var k := FirstIndex(s, idOf, id).value;
    assert (s + t)[k] == s[k];
  }

  /** An element appended behind elements with other ids is found where it was put. */
  lemma FirstIndexAppendNew<T>(s: seq<T>, x: T, idOf: T -> Uuid)
    requires forall j :: 0 <= j < |s| ==> idOf(s[j]) != idOf(x)
    ensures FirstIndex(s + [x], idOf, idOf(x)) == Some(|s|)
  {
    assert (s + [x])[|s|] == x;
  }

  /** The first match is unique: an index holding a match with none before it is the one found. */
  lemma FirstIndexUnique<T>(s: seq<T>, idOf: T -> Uuid, id: Uuid, k: nat)
    requires k < |s| && idOf(s[k]) == id
    requires forall j :: 0 <= j < k ==> idOf(s[j]) != id
    ensures FirstIndex(s, idOf, id) == Some(k)
  {
  }
}
