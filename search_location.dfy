/** `SearchLocationViewModel`: the list of search results and the location the user saved. */
module SearchLocation {
  import opened Wrappers
  import opened Foundation
  import opened Collections
  import opened Location

  class SearchLocationViewModel {
    var list: seq<LocationDTO>
    var savedLocation: LocationDTO

    /** Starts with no results and a default saved location (its `UUID()` is `newId`). */
    constructor (newId: Uuid)
      ensures list == [] && savedLocation == DefaultLocation(newId)
    {
      list := [];
      savedLocation := DefaultLocation(newId);
    }

    /** `savedLocationMapItem`. */
    function SavedLocationMapItem(): Option<MapItem>
      reads this
    {
      savedLocation.mapItem
    }

    /**
     * `selectedLocation(id:)`: the first result with this id; when there is
     * none, a new default location whose `UUID()` is `newId`.
     */
    function SelectedLocation(id: Uuid, newId: Uuid): (r: LocationDTO)
      reads this
      ensures (exists i :: 0 <= i < |list| && list[i].id == id) ==>
        exists i :: 0 <= i < |list| && list[i] == r && r.id == id && forall j :: 0 <= j < i ==> list[j].id != id
      ensures (forall i :: 0 <= i < |list| ==> list[i].id != id) ==> r == DefaultLocation(newId)
    {
      match FirstIndex(list, LocationId, id)
      case None => DefaultLocation(newId)
      case Some(i) => list[i]
    }

    /** `updateSavedLocation(location:)`: replaces the saved location wholesale. */
    method UpdateSavedLocation(location: LocationDTO)
      modifies this`savedLocation
      ensures savedLocation == location && list == old(list)
    {
      savedLocation := location;
    }

    /** `updateSavedLocationMapItem(mapItem:)`: changes the map item only; the id stays. */
    method UpdateSavedLocationMapItem(mapItem: Option<MapItem>)
      modifies this`savedLocation
      ensures savedLocation.id == old(savedLocation.id) && savedLocation.mapItem == mapItem
      ensures list == old(list)
    {
      savedLocation := savedLocation.(mapItem := mapItem);
    }

    /** `appendLocationModel(mapitem:)`: one more result at the end, with a fresh id. */
    method AppendLocationModel(mapItem: Option<MapItem>, newId: Uuid)
      modifies this`list
      ensures list == old(list) + [MakeLocation(mapItem, newId)]
      ensures savedLocation == old(savedLocation)
    {
      list := list + [MakeLocation(mapItem, newId)];
    }

    /** `clearPlaces()`: no results left. */
    method ClearPlaces()
      modifies this`list
      ensures list == [] && savedLocation == old(savedLocation)
    {
      list := [];
    }
  }

  /**
   * A result appended with an id none of the earlier results has is what
   * `selectedLocation` returns for that id afterwards.
   */
  lemma SelectedAfterAppend(list: seq<LocationDTO>, mapItem: Option<MapItem>, newId: Uuid)
    requires forall i :: 0 <= i < |list| ==> list[i].id != newId
    ensures FirstIndex(list + [MakeLocation(mapItem, newId)], LocationId, newId) == Some(|list|)
  {
    FirstIndexAppendNew(list, MakeLocation(mapItem, newId), LocationId);
  }

  /** Appending never changes what an earlier result's id selects. */
  lemma SelectedStableUnderAppend(list: seq<LocationDTO>, x: LocationDTO, id: Uuid)
    requires exists i :: 0 <= i < |list| && list[i].id == id
    ensures FirstIndex(list + [x], LocationId, id) == FirstIndex(list, LocationId, id)
  {
    FirstIndexExtend(list, [x], LocationId, id);
  }
}
