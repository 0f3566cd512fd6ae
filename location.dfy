/** `LocationDTO`: a search result that is identified by its id alone. */
module Location {
  import opened Wrappers
  import opened Foundation

  datatype LocationDTO = LocationDTO(id: Uuid, mapItem: Option<MapItem>)

  function LocationId(location: LocationDTO): Uuid { location.id }

  /** `LocationDTO(mapItem:)`; the `UUID()` it draws is the parameter `newId`. */
  function MakeLocation(mapItem: Option<MapItem>, newId: Uuid): (r: LocationDTO)
    ensures r.id == newId && r.mapItem == mapItem
  {
    LocationDTO(newId, mapItem)
  }

  /** `LocationDTO()`: a fresh id and no map item. */
  function DefaultLocation(newId: Uuid): (r: LocationDTO)
    ensures r.id == newId && r.mapItem.None?
  {
    MakeLocation(None, newId)
  }

  /**
   * `==`: compares `id.hashValue` of both sides; `hashValue` is Swift's
   * per-process hash of a UUID, a parameter here.
   */
  predicate Equal(a: LocationDTO, b: LocationDTO, hashValue: Uuid -> int)
  {
    hashValue(a.id) == hashValue(b.id)
  }

  /**
   * `hash(into:)`: combines the id, and nothing else, into the hasher.
   * A hasher is modelled by the sequence of ids combined into it so far.
   */
  function HashInto(a: LocationDTO, hasher: seq<Uuid>): (r: seq<Uuid>)
    ensures |r| == |hasher| + 1 && r[..|hasher|] == hasher && r[|hasher|] == a.id
  {
    hasher + [a.id]
  }

  /** Two values with the same id are `==`, whatever their map items. */
  lemma EqualIgnoresMapItem(a: LocationDTO, b: LocationDTO, hashValue: Uuid -> int)
    requires a.id == b.id
    ensures Equal(a, b, hashValue)
  {
  }

  /** `==` is an equivalence, since it compares one function of the id. */
  lemma EqualIsEquivalence(a: LocationDTO, b: LocationDTO, c: LocationDTO, hashValue: Uuid -> int)
    ensures Equal(a, a, hashValue)
    ensures Equal(a, b, hashValue) <==> Equal(b, a, hashValue)
    ensures Equal(a, b, hashValue) && Equal(b, c, hashValue) ==> Equal(a, c, hashValue)
  {
  }

  /**
   * Identity by id itself: the equality that `hash(into:)` agrees with, and
   * the one `==` would be if it compared `id` rather than `id.hashValue`.
   */
  predicate EqualById(a: LocationDTO, b: LocationDTO)
  {
    a.id == b.id
  }

  /** Equal by id means equal hashes, from any hasher state and with no assumption on `hashValue`. */
  lemma EqualByIdImpliesEqualHash(a: LocationDTO, b: LocationDTO, hasher: seq<Uuid>)
    requires EqualById(a, b)
    ensures HashInto(a, hasher) == HashInto(b, hasher)
  {
  }

  /** `==` as written agrees with equality by id exactly when `hashValue` does not collide. */
  lemma EqualAgreesWithEqualById(a: LocationDTO, b: LocationDTO, hashValue: Uuid -> int)
    requires forall u, v :: hashValue(u) == hashValue(v) ==> u == v
    ensures Equal(a, b, hashValue) <==> EqualById(a, b)
  {
  }

  /**
   * `==` as written, without the no-collision assumption, breaks Hashable's
   * contract: two locations with different ids whose `hashValue`s collide
   * are `==`, yet `hash(into:)` feeds the hasher different ids.
   */
  lemma EqualWithoutEqualHash()
    ensures var hashValue := (u: Uuid) => 0;
            var a := LocationDTO(Uuid(0), None);
            var b := LocationDTO(Uuid(1), None);
            Equal(a, b, hashValue) && HashInto(a, []) != HashInto(b, [])
  {
    var a := LocationDTO(Uuid(0), None);
    var b := LocationDTO(Uuid(1), None);
    assert HashInto(a, [])[0] != HashInto(b, [])[0];
  }

  /**
   * Hashable's contract, `a == b` implies equal hashes, holds as long as
   * `hashValue` does not collide on two different UUIDs.
   */
  lemma EqualImpliesEqualHash(a: LocationDTO, b: LocationDTO, hashValue: Uuid -> int, hasher: seq<Uuid>)
    requires forall u, v :: hashValue(u) == hashValue(v) ==> u == v
    requires Equal(a, b, hashValue)
    ensures HashInto(a, hasher) == HashInto(b, hasher)
  {
  }
}
