/** The master catalogue of item and facility data assets: two lists of
    references with add (no duplicate reference), remove (first occurrence),
    remove by id, lookup by id and filter by type. */
module GameMaster {
  import opened Wrappers
  import opened Lists
  import opened GameItems
  import opened Facilities

  function ItemIdIs(itemId: string): ItemData -> bool {
    (d: ItemData) => d.itemId == itemId
  }

  function FacilityIdIs(facilityId: string): FacilityData -> bool {
    (d: FacilityData) => d.facilityId == facilityId
  }

  class MasterDatabase {
    var allItems: seq<ItemData>
    var allFacilities: seq<FacilityData>

    constructor()
      ensures allItems == [] && allFacilities == []
    {
      allItems := [];
      allFacilities := [];
    }

    /** GetAllItemData: the list as it is now; being a value, it is a copy
        that later changes to the catalogue leave alone. */
    function GetAllItemData(): (r: seq<ItemData>)
      reads this
      ensures r == allItems
    {
      allItems
    }

    /** GetItemData: the first entry with that id, or null. */
    function GetItemData(itemId: string): (r: ItemData?)
      reads this
      ensures r == null <==> forall i :: 0 <= i < |allItems| ==> allItems[i].itemId != itemId
      ensures r != null ==>
                exists i :: 0 <= i < |allItems| && allItems[i] == r && r.itemId == itemId &&
                            forall j :: 0 <= j < i ==> allItems[j].itemId != itemId
    {
      match FindIndex(allItems, ItemIdIs(itemId))
      case None => null
      case Some(i) => allItems[i]
    }

    /** GetItemDataByType: the entries of that type, in list order. */
    function GetItemDataByType(t: ItemType): (r: seq<ItemData>)
      reads this
      ensures forall i :: 0 <= i < |r| ==> r[i].itemType == t && r[i] in allItems
      ensures forall i :: 0 <= i < |allItems| && allItems[i].itemType == t ==> allItems[i] in r
    {
      Filter(allItems, (d: ItemData) => d.itemType == t)
    }

    /** AddItemData: a reference already listed is ignored, any other one
        appended. */
    method AddItemData(itemData: ItemData)
      modifies this
      ensures itemData in old(allItems) ==> allItems == old(allItems)
      ensures itemData !in old(allItems) ==> allItems == old(allItems) + [itemData]
      ensures Distinct(old(allItems)) ==> Distinct(allItems)
      ensures allFacilities == old(allFacilities)
    {
      if itemData !in allItems {
        if Distinct(allItems) {
          AppendDistinct(allItems, itemData);
        }
        allItems := allItems + [itemData];
      }
    }

    /** RemoveItemData: List.Remove, the first occurrence of the reference
        going; a reference not listed changes nothing. */
    method RemoveItemData(itemData: ItemData)
      modifies this
      ensures allItems == Remove(old(allItems), itemData)
      ensures itemData !in old(allItems) ==> allItems == old(allItems)
      ensures Distinct(old(allItems)) ==> Distinct(allItems) && itemData !in allItems
      ensures allFacilities == old(allFacilities)
    {
      if Distinct(allItems) {
        RemoveDistinct(allItems, itemData);
        RemoveMembers(allItems, itemData, itemData);
      }
      allItems := Remove(allItems, itemData);
    }

    /** RemoveItemDataById: the first entry with that id goes; no such entry
        changes nothing. */
    method RemoveItemDataById(itemId: string)
      modifies this
      ensures FindIndex(old(allItems), ItemIdIs(itemId)).None? ==> allItems == old(allItems)
      ensures FindIndex(old(allItems), ItemIdIs(itemId)).Some? ==>
                var i := FindIndex(old(allItems), ItemIdIs(itemId)).value;
                allItems == old(allItems)[..i] + old(allItems)[i + 1..]
      ensures allFacilities == old(allFacilities)
    {
      var itemData := GetItemData(itemId);
      if itemData != null {
        RemoveFirstMatch(allItems, ItemIdIs(itemId), FindIndex(allItems, ItemIdIs(itemId)).value);
        RemoveItemData(itemData);
      }
    }

    /** GetAllFacilityData: the list as it is now, a copy. */
    function GetAllFacilityData(): (r: seq<FacilityData>)
      reads this
      ensures r == allFacilities
    {
      allFacilities
    }

    /** GetFacilityData: the first entry with that id, or null. */
    function GetFacilityData(facilityId: string): (r: FacilityData?)
      reads this
      ensures r == null <==> forall i :: 0 <= i < |allFacilities| ==> allFacilities[i].facilityId != facilityId
      ensures r != null ==>
                exists i :: 0 <= i < |allFacilities| && allFacilities[i] == r && r.facilityId == facilityId &&
                            forall j :: 0 <= j < i ==> allFacilities[j].facilityId != facilityId
    {
      match FindIndex(allFacilities, FacilityIdIs(facilityId))
      case None => null
      case Some(i) => allFacilities[i]
    }

    /** GetFacilityDataByType: the entries of that type, in list order. */
    function GetFacilityDataByType(t: FacilityType): (r: seq<FacilityData>)
      reads this
      ensures forall i :: 0 <= i < |r| ==> r[i].facilityType == t && r[i] in allFacilities
      ensures forall i :: 0 <= i < |allFacilities| && allFacilities[i].facilityType == t ==> allFacilities[i] in r
    {
      Filter(allFacilities, (d: FacilityData) => d.facilityType == t)
    }

    method AddFacilityData(facilityData: FacilityData)
      modifies this
      ensures facilityData in old(allFacilities) ==> allFacilities == old(allFacilities)
      ensures facilityData !in old(allFacilities) ==> allFacilities == old(allFacilities) + [facilityData]
      ensures Distinct(old(allFacilities)) ==> Distinct(allFacilities)
      ensures allItems == old(allItems)
    {
      if facilityData !in allFacilities {
        if Distinct(allFacilities) {
          AppendDistinct(allFacilities, facilityData);
        }
        allFacilities := allFacilities + [facilityData];
      }
    }

    method RemoveFacilityData(facilityData: FacilityData)
      modifies this
      ensures allFacilities == Remove(old(allFacilities), facilityData)
      ensures facilityData !in old(allFacilities) ==> allFacilities == old(allFacilities)
      ensures Distinct(old(allFacilities)) ==> Distinct(allFacilities) && facilityData !in allFacilities
      ensures allItems == old(allItems)
    {
      if Distinct(allFacilities) {
        RemoveDistinct(allFacilities, facilityData);
        RemoveMembers(allFacilities, facilityData, facilityData);
      }
      allFacilities := Remove(allFacilities, facilityData);
    }

    method RemoveFacilityDataById(facilityId: string)
      modifies this
      ensures FindIndex(old(allFacilities), FacilityIdIs(facilityId)).None? ==> allFacilities == old(allFacilities)
      ensures FindIndex(old(allFacilities), FacilityIdIs(facilityId)).Some? ==>
                var i := FindIndex(old(allFacilities), FacilityIdIs(facilityId)).value;
                allFacilities == old(allFacilities)[..i] + old(allFacilities)[i + 1..]
      ensures allItems == old(allItems)
    {
      var facilityData := GetFacilityData(facilityId);
      if facilityData != null {
        RemoveFirstMatch(allFacilities, FacilityIdIs(facilityId), FindIndex(allFacilities, FacilityIdIs(facilityId)).value);
        RemoveFacilityData(facilityData);
      }
    }
  }
}
