/** The item data structures shared by the stores: an inventory entry whose
    quantity the player store changes in place, a cost line, and the item
    master data asset (compared by reference). */
module GameItems {
  datatype ItemType = Consumable | Equipment | Material | KeyItem | Other

  /** Item: one inventory entry. Only its quantity ever changes. */
  class Item {
    const itemId: string
    const itemName: string
    const description: string
    var quantity: int
    const itemType: ItemType

    constructor(id: string, name: string, desc: string, qty: int, t: ItemType)
      ensures itemId == id && itemName == name && description == desc
      ensures quantity == qty && itemType == t
    {
      itemId := id;
      itemName := name;
      description := desc;
      quantity := qty;
      itemType := t;
    }
  }

  /** ItemCost: how many of one item a payment takes. */
  datatype ItemCost = ItemCost(itemId: string, quantity: int)

  /** ItemData: the master data of one item. */
  class ItemData {
    const itemId: string
    const itemName: string
    const description: string
    const itemType: ItemType
    const maxStackSize: int
    const basePrice: int
    const isConsumable: bool

    constructor(id: string, name: string, desc: string, t: ItemType)
      ensures itemId == id && itemName == name && description == desc && itemType == t
      ensures maxStackSize == 99 && basePrice == 0 && !isConsumable
    {
      itemId := id;
      itemName := name;
      description := desc;
      itemType := t;
      maxStackSize := 99;
      basePrice := 0;
      isConsumable := false;
    }

    /** CreateItem: a new inventory entry with this data's identity and
        type, holding the given quantity. */
    method CreateItem(quantity: int) returns (item: Item)
      ensures fresh(item)
      ensures item.itemId == itemId && item.itemName == itemName && item.description == description
      ensures item.quantity == quantity && item.itemType == itemType
    {
      item := new Item(itemId, itemName, description, quantity, itemType);
    }
  }
}
