/** The player store: money, an inventory of items merged by id, and the
    player's facilities with their plain and paid unlock and upgrade. */
module GameStore {
  import opened Wrappers
  import opened Lists
  import opened GameItems
  import opened FacilityProduction
  import opened Facilities
  import GameMaster

  // ---------------------------------------------------------------------
  // The inventory as values: one (id, quantity) pair per entry, in list
  // order, and what adding, taking and paying do to it.

  datatype Stack = Stack(itemId: string, quantity: int)

  function StackIs(itemId: string): Stack -> bool {
    (s: Stack) => s.itemId == itemId
  }

  predicate DistinctIds(inv: seq<Stack>) {
    forall a, b :: 0 <= a < b < |inv| ==> inv[a].itemId != inv[b].itemId
  }

  /** Present: an entry with that id exists. */
  predicate Present(inv: seq<Stack>, itemId: string) {
    FindIndex(inv, StackIs(itemId)).Some?
  }

  /** GetItemQuantity on values: the first entry's quantity, 0 when absent. */
  function QuantityIn(inv: seq<Stack>, itemId: string): int {
    match FindIndex(inv, StackIs(itemId))
    case None => 0
    case Some(i) => inv[i].quantity
  }

  /** AddItem on values: the quantity is added to the entry with that id,
      or a new entry is appended. */
  function Added(inv: seq<Stack>, itemId: string, quantity: int): seq<Stack> {
    match FindIndex(inv, StackIs(itemId))
    case None => inv + [Stack(itemId, quantity)]
    case Some(i) => inv[i := Stack(itemId, inv[i].quantity + quantity)]
  }

  /** RemoveItem succeeds when an entry with that id holds at least that
      many. */
  predicate CanTake(inv: seq<Stack>, itemId: string, quantity: int) {
    match FindIndex(inv, StackIs(itemId))
    case None => false
    case Some(i) => inv[i].quantity >= quantity
  }

  /** RemoveItem on values: on success the entry's quantity drops by the
      amount and the entry goes once it is at most 0; on failure nothing
      changes. */
  function Taken(inv: seq<Stack>, itemId: string, quantity: int): seq<Stack> {
    match FindIndex(inv, StackIs(itemId))
    case None => inv
    case Some(i) =>
      if inv[i].quantity < quantity then inv
      else if inv[i].quantity - quantity <= 0 then inv[..i] + inv[i + 1..]
      else inv[i := Stack(itemId, inv[i].quantity - quantity)]
  }

  /** The item part of a payment: RemoveItem for each cost line, in order,
      whatever each one returns. */
  function TakenAll(inv: seq<Stack>, costs: seq<ItemCost>): seq<Stack> {
    if |costs| == 0 then inv
    else
      var last := costs[|costs| - 1];
      Taken(TakenAll(inv, costs[..|costs| - 1]), last.itemId, last.quantity)
  }

  /** CanAfford on values: enough money and, for each cost line, at least
      that quantity of the item. */
  predicate Affordable(money: int, inv: seq<Stack>, moneyCost: int, costs: seq<ItemCost>) {
    money >= moneyCost && forall k :: 0 <= k < |costs| ==> QuantityIn(inv, costs[k].itemId) >= costs[k].quantity
  }

  /** The cost lines name distinct items. */
  predicate DistinctCostIds(costs: seq<ItemCost>) {
    forall a, b :: 0 <= a < b < |costs| ==> costs[a].itemId != costs[b].itemId
  }

  /** First-match searches over two lists whose entries match alike find
      the same position. */
  lemma FindIndexAlike<A, B>(a: seq<A>, p: A -> bool, b: seq<B>, q: B -> bool)
    requires |a| == |b| && forall k :: 0 <= k < |a| ==> p(a[k]) == q(b[k])
    ensures FindIndex(a, p) == FindIndex(b, q)
  {
  }

  /** In a list with distinct ids, the entry at i is the one found for its
      id. */
  lemma FoundAt(inv: seq<Stack>, i: nat)
    requires DistinctIds(inv) && i < |inv|
    ensures FindIndex(inv, StackIs(inv[i].itemId)) == Some(i)
  {
  }

  /** AddItem never creates a second entry for an id: it adds exactly the
      quantity to that id and leaves every other id's quantity alone. */
  lemma AddedQuantities(inv: seq<Stack>, itemId: string, quantity: int, other: string)
    requires DistinctIds(inv)
    ensures DistinctIds(Added(inv, itemId, quantity))
    ensures QuantityIn(Added(inv, itemId, quantity), itemId) == QuantityIn(inv, itemId) + quantity
    ensures other != itemId ==> QuantityIn(Added(inv, itemId, quantity), other) == QuantityIn(inv, other)
  {
    var r := Added(inv, itemId, quantity);
    var found := FindIndex(inv, StackIs(itemId));
    if found.None? {
      assert r == inv + [Stack(itemId, quantity)];
      FoundAt(r, |inv|);
      FindIndexAlike(inv, StackIs(other), r[..|inv|], StackIs(other));
      assert r[..|inv|] == inv;
      if !Present(inv, other) && other != itemId {
        assert !StackIs(other)(r[|inv|]);
      }
    } else {
      var i := found.value;
      assert r == inv[i := Stack(itemId, inv[i].quantity + quantity)];
      Updated(inv, i, itemId, inv[i].quantity + quantity, other);
    }
  }

  /** RemoveItem keeps ids distinct and, when it succeeds, lowers that id's
      quantity by exactly the amount (an entry left at 0 is dropped, which
      reads as 0); no other id changes. */
  lemma TakenQuantities(inv: seq<Stack>, itemId: string, quantity: int, other: string)
    requires DistinctIds(inv)
    ensures DistinctIds(Taken(inv, itemId, quantity))
    ensures !CanTake(inv, itemId, quantity) ==> Taken(inv, itemId, quantity) == inv
    ensures CanTake(inv, itemId, quantity) ==>
              QuantityIn(Taken(inv, itemId, quantity), itemId) == QuantityIn(inv, itemId) - quantity
    ensures other != itemId ==>
              QuantityIn(Taken(inv, itemId, quantity), other) == QuantityIn(inv, other) &&
              (Present(Taken(inv, itemId, quantity), other) <==> Present(inv, other))
  {
    var found := FindIndex(inv, StackIs(itemId));
    if found.Some? {
      var i := found.value;
      if inv[i].quantity >= quantity {
        if inv[i].quantity - quantity <= 0 {
          assert Taken(inv, itemId, quantity) == inv[..i] + inv[i + 1..];
          TakenDropped(inv, i, itemId, other);
        } else {
          assert Taken(inv, itemId, quantity) == inv[i := Stack(itemId, inv[i].quantity - quantity)];
          Updated(inv, i, itemId, inv[i].quantity - quantity, other);
        }
      }
    }
  }

  /** Setting the quantity of the entry at i, the entry of itemId: that id
      now reads the new quantity and every other id is unchanged. */
  lemma Updated(inv: seq<Stack>, i: nat, itemId: string, q: int, other: string)
    requires DistinctIds(inv) && i < |inv| && inv[i].itemId == itemId
    ensures DistinctIds(inv[i := Stack(itemId, q)])
    ensures QuantityIn(inv[i := Stack(itemId, q)], itemId) == q
    ensures other != itemId ==>
              QuantityIn(inv[i := Stack(itemId, q)], other) == QuantityIn(inv, other) &&
              (Present(inv[i := Stack(itemId, q)], other) <==> Present(inv, other))
  {
    var r := inv[i := Stack(itemId, q)];
    FoundAt(r, i);
    FindIndexAlike(inv, StackIs(other), r, StackIs(other));
  }

  /** Dropping the entry at i, the entry of itemId: that id is absent
      afterwards and every other id keeps its entry. */
  lemma TakenDropped(inv: seq<Stack>, i: nat, itemId: string, other: string)
    requires DistinctIds(inv) && i < |inv| && inv[i].itemId == itemId
    ensures DistinctIds(inv[..i] + inv[i + 1..])
    ensures !Present(inv[..i] + inv[i + 1..], itemId)
    ensures other != itemId ==>
              QuantityIn(inv[..i] + inv[i + 1..], other) == QuantityIn(inv, other) &&
              (Present(inv[..i] + inv[i + 1..], other) <==> Present(inv, other))
  {
    var r := inv[..i] + inv[i + 1..];
    assert forall k :: 0 <= k < |r| ==> r[k] == inv[if k < i then k else k + 1];
    if other != itemId {
      match FindIndex(inv, StackIs(other))
      case None =>
      case Some(j) =>
        var k := if j < i then j else j - 1;
        assert r[k] == inv[j];
        FoundAt(r, k);
        FoundAt(inv, j);
    }
  }

  /** A payment whose afford check passed, over cost lines naming distinct
      items: each listed item that was present is reduced by its line's
      quantity, a listed item that was absent stays absent, and every other
      item is untouched. */
  lemma {:induction false} PaymentQuantities(inv: seq<Stack>, costs: seq<ItemCost>, itemId: string)
    requires DistinctIds(inv) && DistinctCostIds(costs)
    requires forall k :: 0 <= k < |costs| ==> QuantityIn(inv, costs[k].itemId) >= costs[k].quantity
    ensures DistinctIds(TakenAll(inv, costs))
    ensures forall k :: 0 <= k < |costs| ==>
              QuantityIn(TakenAll(inv, costs), costs[k].itemId) ==
              QuantityIn(inv, costs[k].itemId) - (if Present(inv, costs[k].itemId) then costs[k].quantity else 0)
    ensures (forall k :: 0 <= k < |costs| ==> costs[k].itemId != itemId) ==>
              QuantityIn(TakenAll(inv, costs), itemId) == QuantityIn(inv, itemId) &&
              (Present(TakenAll(inv, costs), itemId) <==> Present(inv, itemId))
    decreases |costs|
  {
    if |costs| > 0 {
      var n := |costs| - 1;
      var init := costs[..n];
      var last := costs[n];
      assert forall k :: 0 <= k < n ==> init[k] == costs[k];
      PaymentQuantities(inv, init, last.itemId);
      PaymentQuantities(inv, init, itemId);
      assert forall k :: 0 <= k < |init| ==> init[k].itemId != last.itemId;
      PaymentStep(inv, costs, init, last, TakenAll(inv, init), itemId);
    }
  }

  /** The last cost line of a payment, given what the earlier lines did. */
  lemma PaymentStep(inv: seq<Stack>, costs: seq<ItemCost>, init: seq<ItemCost>, last: ItemCost,
                    mid: seq<Stack>, itemId: string)
    requires |costs| > 0 && init == costs[..|costs| - 1] && last == costs[|costs| - 1]
    requires DistinctCostIds(costs)
    requires forall k :: 0 <= k < |costs| ==> QuantityIn(inv, costs[k].itemId) >= costs[k].quantity
    requires mid == TakenAll(inv, init) && DistinctIds(mid)
    requires forall k :: 0 <= k < |init| ==>
               QuantityIn(mid, init[k].itemId) ==
               QuantityIn(inv, init[k].itemId) - (if Present(inv, init[k].itemId) then init[k].quantity else 0)
    requires QuantityIn(mid, last.itemId) == QuantityIn(inv, last.itemId)
    requires Present(mid, last.itemId) <==> Present(inv, last.itemId)
    requires (forall k :: 0 <= k < |init| ==> init[k].itemId != itemId) ==>
               QuantityIn(mid, itemId) == QuantityIn(inv, itemId) && (Present(mid, itemId) <==> Present(inv, itemId))
    ensures DistinctIds(TakenAll(inv, costs))
    ensures forall k :: 0 <= k < |costs| ==>
              QuantityIn(TakenAll(inv, costs), costs[k].itemId) ==
              QuantityIn(inv, costs[k].itemId) - (if Present(inv, costs[k].itemId) then costs[k].quantity else 0)
    ensures (forall k :: 0 <= k < |costs| ==> costs[k].itemId != itemId) ==>
              QuantityIn(TakenAll(inv, costs), itemId) == QuantityIn(inv, itemId) &&
              (Present(TakenAll(inv, costs), itemId) <==> Present(inv, itemId))
  {
    var n := |costs| - 1;
    var after := Taken(mid, last.itemId, last.quantity);
    assert after == TakenAll(inv, costs);
    TakenQuantities(mid, last.itemId, last.quantity, itemId);
    forall k | 0 <= k < |costs|
      ensures QuantityIn(after, costs[k].itemId) ==
              QuantityIn(inv, costs[k].itemId) - (if Present(inv, costs[k].itemId) then costs[k].quantity else 0)
    {
      TakenQuantities(mid, last.itemId, last.quantity, costs[k].itemId);
      if k == n {
        if !Present(mid, last.itemId) {
          assert Taken(mid, last.itemId, last.quantity) == mid;
        }
      } else {
        assert costs[k] == init[k];
      }
    }
  }

  /** Adding items and then taking the same quantity back succeeds and
      leaves every id's quantity as it was, provided the id did not start
      negative. */
  lemma AddThenTake(inv: seq<Stack>, itemId: string, quantity: int, other: string)
    requires DistinctIds(inv) && QuantityIn(inv, itemId) >= 0
    ensures CanTake(Added(inv, itemId, quantity), itemId, quantity)
    ensures QuantityIn(Taken(Added(inv, itemId, quantity), itemId, quantity), other) == QuantityIn(inv, other)
  {
    var added := Added(inv, itemId, quantity);
    AddedQuantities(inv, itemId, quantity, other);
    AddedPresent(inv, itemId, quantity);
    TakenQuantities(added, itemId, quantity, other);
  }

  /** After AddItem the id has an entry. */
  lemma AddedPresent(inv: seq<Stack>, itemId: string, quantity: int)
    requires DistinctIds(inv)
    ensures Present(Added(inv, itemId, quantity), itemId)
  {
    var r := Added(inv, itemId, quantity);
    AddedQuantities(inv, itemId, quantity, itemId);
    match FindIndex(inv, StackIs(itemId))
    case None => FoundAt(r, |inv|);
    case Some(i) => FoundAt(r, i);
  }

  // ---------------------------------------------------------------------
  // The store itself.

  function ItemIs(itemId: string): Item -> bool {
    (i: Item) => i.itemId == itemId
  }

  /** The fields of a player's facility that the store changes. */
  datatype FacilityStatus = FacilityStatus(level: int, isUnlocked: bool, config: ProductionConfig)

  class GameDatabase {
    var playerMoney: int
    var items: seq<Item>
    var facilities: seq<Facility>

    /** Every way of adding keeps one entry per item id and one facility
        per facility id. */
    predicate Valid()
      reads this
    {
      (forall a, b :: 0 <= a < b < |items| ==> items[a].itemId != items[b].itemId) &&
      (forall a, b :: 0 <= a < b < |facilities| ==> facilities[a].facilityId != facilities[b].facilityId)
    }

    constructor()
      ensures Valid() && playerMoney == 0 && items == [] && facilities == []
    {
      playerMoney := 0;
      items := [];
      facilities := [];
    }

    /** The inventory's ids and quantities, in list order. */
    function Inventory(): seq<Stack>
      reads this, items
    {
      seq(|items|, k requires 0 <= k < |items| reads this, items => Stack(items[k].itemId, items[k].quantity))
    }

    /** The changing fields of the facilities, in list order. */
    function Statuses(): seq<FacilityStatus>
      reads this, facilities
    {
      seq(|facilities|, k requires 0 <= k < |facilities| reads this, facilities =>
        FacilityStatus(facilities[k].level, facilities[k].isUnlocked, facilities[k].productionConfig))
    }

    /** Where the facility with that id sits, if anywhere. */
    function FacilityIndex(facilityId: string): Option<nat>
      reads this
    {
      FindIndex(facilities, FacilityIs(facilityId))
    }

    /** Searching the inventory values finds what searching the entries
        finds. */
    lemma InventorySearch(itemId: string)
      ensures FindIndex(Inventory(), StackIs(itemId)) == FindIndex(items, ItemIs(itemId))
    {
      FindIndexAlike(Inventory(), StackIs(itemId), items, ItemIs(itemId));
    }

    function GetMoney(): int
      reads this
    {
      playerMoney
    }

    method AddMoney(amount: int)
      modifies this
      ensures playerMoney == old(playerMoney) + amount
      ensures items == old(items) && facilities == old(facilities)
    {
      playerMoney := playerMoney + amount;
    }

    /** SpendMoney: succeeds exactly when the balance covers the amount,
        taking it off; a failure changes nothing. A success never leaves
        the balance negative. */
    method SpendMoney(amount: int) returns (ok: bool)
      modifies this
      ensures ok <==> old(playerMoney) >= amount
      ensures playerMoney == if ok then old(playerMoney) - amount else old(playerMoney)
      ensures ok ==> playerMoney >= 0
      ensures items == old(items) && facilities == old(facilities)
    {
      if playerMoney >= amount {
        playerMoney := playerMoney - amount;
        ok := true;
      } else {
        ok := false;
      }
    }

    method SetMoney(amount: int)
      modifies this
      ensures playerMoney == amount
      ensures items == old(items) && facilities == old(facilities)
    {
      playerMoney := amount;
    }

    /** GetAllItems: the entries as they are now; the list is a copy, the
        entries are shared. */
    function GetAllItems(): (r: seq<Item>)
      reads this
      ensures r == items
    {
      items
    }

    /** GetItem: the first entry with that id, or null. */
    function GetItem(itemId: string): (r: Item?)
      reads this
      ensures r == null <==> forall i :: 0 <= i < |items| ==> items[i].itemId != itemId
      ensures r != null ==>
                exists i :: 0 <= i < |items| && items[i] == r && r.itemId == itemId &&
                            forall j :: 0 <= j < i ==> items[j].itemId != itemId
    {
      match FindIndex(items, ItemIs(itemId))
      case None => null
      case Some(i) => items[i]
    }

    /** GetItemQuantity: the quantity of that id, 0 when there is no
        entry. */
    function GetItemQuantity(itemId: string): (r: int)
      reads this, items
      ensures r == QuantityIn(Inventory(), itemId)
    {
      InventorySearch(itemId);
      var item := GetItem(itemId);
      if item != null then item.quantity else 0
    }

    /** GetItemsByType: the entries of that type, in list order. */
    function GetItemsByType(t: ItemType): (r: seq<Item>)
      reads this
      ensures forall i :: 0 <= i < |r| ==> r[i].itemType == t && r[i] in items
      ensures forall i :: 0 <= i < |items| && items[i].itemType == t ==> items[i] in r
    {
      Filter(items, (i: Item) => i.itemType == t)
    }

    /** The entry at i now holds q; nothing else changes. */
    method SetQuantity(i: nat, q: int)
      requires Valid() && i < |items|
      modifies items[i]
      ensures items[i].quantity == q
      ensures Inventory() == old(Inventory())[i := Stack(items[i].itemId, q)]
    {
      items[i].quantity := q;
      forall k | 0 <= k < |items| && k != i ensures items[k] != items[i] {
        assert items[k].itemId != items[i].itemId;
      }
    }

    /** List.Remove of the entry at i: as ids are distinct, its first
        occurrence is at i. */
    method DropEntry(i: nat)
      requires Valid() && i < |items|
      modifies this
      ensures Valid()
      ensures items == old(items)[..i] + old(items)[i + 1..]
      ensures Inventory() == old(Inventory())[..i] + old(Inventory())[i + 1..]
      ensures playerMoney == old(playerMoney) && facilities == old(facilities)
    {
      RemoveFirstMatch(items, ItemIs(items[i].itemId), i);
      var rest := Remove(items, items[i]);
      assert forall k :: 0 <= k < |rest| ==> rest[k] == items[if k < i then k else k + 1];
      items := rest;
    }

    /** A new entry for an id not yet listed goes at the end. */
    method AppendEntry(itemId: string, itemName: string, description: string, quantity: int, t: ItemType)
      requires Valid() && forall k :: 0 <= k < |items| ==> items[k].itemId != itemId
      modifies this
      ensures Valid()
      ensures |items| == |old(items)| + 1
      ensures items[..|items| - 1] == old(items) && fresh(items[|items| - 1])
      ensures items[|items| - 1].itemName == itemName && items[|items| - 1].description == description
      ensures items[|items| - 1].itemType == t
      ensures Inventory() == old(Inventory()) + [Stack(itemId, quantity)]
      ensures playerMoney == old(playerMoney) && facilities == old(facilities)
    {
      var item := new Item(itemId, itemName, description, quantity, t);
      items := items + [item];
      assert items[..|items| - 1] == old(items);
    }

    /** AddItem: the quantity goes into the entry with that id, or into a
        new entry appended with the given name, description and type. */
    method AddItem(itemId: string, itemName: string, description: string, quantity: int, t: ItemType)
      requires Valid()
      modifies this, items
      ensures Valid()
      ensures Inventory() == Added(old(Inventory()), itemId, quantity)
      ensures FindIndex(old(items), ItemIs(itemId)).Some? ==> items == old(items)
      ensures FindIndex(old(items), ItemIs(itemId)).None? ==>
                |items| == |old(items)| + 1 && items[..|items| - 1] == old(items) && fresh(items[|items| - 1]) &&
                items[|items| - 1].itemName == itemName && items[|items| - 1].description == description &&
                items[|items| - 1].itemType == t
      ensures playerMoney == old(playerMoney) && facilities == old(facilities)
    {
      InventorySearch(itemId);
      var found := FindIndex(items, ItemIs(itemId));
      if found.Some? {
        SetQuantity(found.value, items[found.value].quantity + quantity);
      } else {
        AppendEntry(itemId, itemName, description, quantity, t);
      }
    }

    /** RemoveItem: fails, changing nothing, unless an entry with that id
        holds at least the quantity; then the quantity is taken off and an
        entry left at 0 or below is dropped. */
    method RemoveItem(itemId: string, quantity: int) returns (ok: bool)
      requires Valid()
      modifies this, items
      ensures Valid()
      ensures ok <==> CanTake(old(Inventory()), itemId, quantity)
      ensures Inventory() == Taken(old(Inventory()), itemId, quantity)
      ensures !ok ==> items == old(items)
      ensures forall k :: 0 <= k < |items| ==> items[k] in old(items)
      ensures playerMoney == old(playerMoney) && facilities == old(facilities)
    {
      InventorySearch(itemId);
      var found := FindIndex(items, ItemIs(itemId));
      if found.Some? && items[found.value].quantity >= quantity {
        var i := found.value;
        var item := items[i];
        SetQuantity(i, item.quantity - quantity);
        if item.quantity <= 0 {
          DropEntry(i);
        }
        ok := true;
      } else {
        ok := false;
      }
    }
  
    /** CanAffordFacilityUnlock and CanAffordFacilityUpgrade share this
        check: the money first, then each cost line in order against the
        current quantity of its item. */
    method CanAfford(moneyCost: int, costs: seq<ItemCost>) returns (r: bool)
      ensures r == Affordable(playerMoney, Inventory(), moneyCost, costs)
    {
      if playerMoney < moneyCost {
        return false;
      }
      for k := 0 to |costs|
        invariant forall j :: 0 <= j < k ==> QuantityIn(Inventory(), costs[j].itemId) >= costs[j].quantity
      {
        var currentQuantity := GetItemQuantity(costs[k].itemId);
        if currentQuantity < costs[k].quantity {
          return false;
        }
      }
      return true;
    }

    method CanAffordFacilityUnlock(facilityData: FacilityData) returns (r: bool)
      ensures r == Affordable(playerMoney, Inventory(), facilityData.unlockMoneyCost, facilityData.unlockItemCosts)
    {
      r := CanAfford(facilityData.unlockMoneyCost, facilityData.unlockItemCosts);
    }

    method CanAffordFacilityUpgrade(facilityData: FacilityData) returns (r: bool)
      ensures r == Affordable(playerMoney, Inventory(), facilityData.upgradeMoneyCost, facilityData.upgradeItemCosts)
    {
      r := CanAfford(facilityData.upgradeMoneyCost, facilityData.upgradeItemCosts);
    }

    /** The payment both paid operations make once the check has passed: a
        positive money cost through SpendMoney, then RemoveItem for each
        cost line, their results ignored. */
    method PayCosts(moneyCost: int, costs: seq<ItemCost>)
      requires Valid()
      modifies this, items
      ensures Valid()
      ensures playerMoney ==
              if moneyCost > 0 && old(playerMoney) >= moneyCost then old(playerMoney) - moneyCost else old(playerMoney)
      ensures Inventory() == TakenAll(old(Inventory()), costs)
      ensures facilities == old(facilities) && Statuses() == old(Statuses())
    {
      if moneyCost > 0 {
        var spent := SpendMoney(moneyCost);
      }
      for k := 0 to |costs|
        invariant Valid()
        invariant playerMoney ==
                  if moneyCost > 0 && old(playerMoney) >= moneyCost then old(playerMoney) - moneyCost else old(playerMoney)
        invariant Inventory() == TakenAll(old(Inventory()), costs[..k])
        invariant forall k :: 0 <= k < |items| ==> items[k] in old(items)
        invariant facilities == old(facilities) && Statuses() == old(Statuses())
      {
        assert costs[..k + 1][..k] == costs[..k];
        var taken := RemoveItem(costs[k].itemId, costs[k].quantity);
      }
      assert costs[..|costs|] == costs;
    }

    /** GetAllFacilities: the facilities as they are now, a copy of the
        list. */
    function GetAllFacilities(): (r: seq<Facility>)
      reads this
      ensures r == facilities
    {
      facilities
    }

    /** GetFacility: the first facility with that id, or null. */
    function GetFacility(facilityId: string): (r: Facility?)
      reads this
      ensures r == null <==> forall i :: 0 <= i < |facilities| ==> facilities[i].facilityId != facilityId
      ensures r != null ==>
                exists i :: 0 <= i < |facilities| && facilities[i] == r && r.facilityId == facilityId &&
                            forall j :: 0 <= j < i ==> facilities[j].facilityId != facilityId
    {
      match FacilityIndex(facilityId)
      case None => null
      case Some(i) => facilities[i]
    }

    /** HasFacility: GetFacility finds a facility and it is unlocked. */
    predicate HasFacility(facilityId: string)
      reads this, facilities
    {
      match FacilityIndex(facilityId)
      case None => false
      case Some(i) => facilities[i].isUnlocked
    }

    /** HasFacility holds exactly when the first facility with that id is
        unlocked. */
    lemma HasFacilityFirst(facilityId: string)
      ensures HasFacility(facilityId) <==>
              exists i :: 0 <= i < |facilities| && facilities[i].facilityId == facilityId &&
                          facilities[i].isUnlocked && forall j :: 0 <= j < i ==> facilities[j].facilityId != facilityId
    {
      if !HasFacility(facilityId) && FacilityIndex(facilityId).Some? {
        var i := FacilityIndex(facilityId).value;
        forall k | 0 <= k < |facilities| && facilities[k].facilityId == facilityId && facilities[k].isUnlocked
          ensures exists j :: 0 <= j < k && facilities[j].facilityId == facilityId
        {
          assert i < k;
        }
      }
    }

    /** GetUnlockedFacilities: the unlocked facilities, in list order. */
    function GetUnlockedFacilities(): (r: seq<Facility>)
      reads this, facilities
      ensures forall i :: 0 <= i < |r| ==> r[i].isUnlocked && r[i] in facilities
      ensures forall i :: 0 <= i < |facilities| && facilities[i].isUnlocked ==> facilities[i] in r
    {
      UnlockedOf(facilities)
    }

    /** GetFacilitiesByType: the facilities of that type, in list order. */
    function GetFacilitiesByType(t: FacilityType): (r: seq<Facility>)
      reads this
      ensures forall i :: 0 <= i < |r| ==> r[i].facilityType == t && r[i] in facilities
      ensures forall i :: 0 <= i < |facilities| && facilities[i].facilityType == t ==> facilities[i] in r
    {
      Filter(facilities, (f: Facility) => f.facilityType == t)
    }

    /** AddFacility: an id already present is ignored; otherwise a new
        facility with a default production configuration is appended. */
    method AddFacility(facilityId: string, facilityName: string, description: string,
                       level: int, isUnlocked: bool, t: FacilityType)
      requires Valid()
      modifies this
      ensures Valid()
      ensures old(FacilityIndex(facilityId)).Some? ==> facilities == old(facilities)
      ensures old(FacilityIndex(facilityId)).None? ==>
                |facilities| == |old(facilities)| + 1 && facilities[..|old(facilities)|] == old(facilities) &&
                var f := facilities[|old(facilities)|];
                fresh(f) && f.facilityId == facilityId && f.facilityName == facilityName &&
                f.description == description && f.level == level && f.isUnlocked == isUnlocked &&
                f.facilityType == t && fresh(f.productionConfig) && !f.productionConfig.IsValid()
      ensures playerMoney == old(playerMoney) && items == old(items)
    {
      if FacilityIndex(facilityId).None? {
        var f := new Facility(facilityId, facilityName, description, level, isUnlocked, t, Option.None);
        facilities := facilities + [f];
        assert facilities[..|old(facilities)|] == old(facilities);
      }
    }

    /** The facility at i is unlocked and, when given, takes new production
        settings; nothing else changes. */
    method SetUnlocked(i: nat, config: Option<ProductionConfig>)
      requires Valid() && i < |facilities|
      modifies facilities[i]
      ensures facilities[i].isUnlocked && Inventory() == old(Inventory())
      ensures Statuses() == old(Statuses())[i := FacilityStatus(old(facilities[i].level), true,
                                                                 config.GetOr(old(facilities[i].productionConfig)))]
    {
      facilities[i].isUnlocked := true;
      if config.Some? {
        facilities[i].productionConfig := config.value;
      }
      forall k | 0 <= k < |facilities| && k != i ensures facilities[k] != facilities[i] {
        assert facilities[k].facilityId != facilities[i].facilityId;
      }
    }

    /** The facility at i goes up one level; nothing else changes. */
    method LevelUp(i: nat)
      requires Valid() && i < |facilities|
      modifies facilities[i]
      ensures facilities[i].level == old(facilities[i].level) + 1 && Inventory() == old(Inventory())
      ensures Statuses() == old(Statuses())[i := old(Statuses())[i].(level := old(facilities[i].level) + 1)]
    {
      facilities[i].level := facilities[i].level + 1;
      forall k | 0 <= k < |facilities| && k != i ensures facilities[k] != facilities[i] {
        assert facilities[k].facilityId != facilities[i].facilityId;
      }
    }

    /** UnlockFacility: the facility with that id, if any, is unlocked. */
    method UnlockFacility(facilityId: string) returns (ok: bool)
      requires Valid()
      modifies facilities
      ensures ok <==> FacilityIndex(facilityId).Some?
      ensures ok ==> var i := FacilityIndex(facilityId).value;
                     Statuses() == old(Statuses())[i := old(Statuses())[i].(isUnlocked := true)]
      ensures !ok ==> Statuses() == old(Statuses())
    {
      match FacilityIndex(facilityId)
      case None =>
        ok := false;
      case Some(i) =>
        SetUnlocked(i, Option.None);
        ok := true;
    }

    /** UpgradeFacility: the facility with that id goes up one level when
        it exists and is unlocked. */
    method UpgradeFacility(facilityId: string) returns (ok: bool)
      requires Valid()
      modifies facilities
      ensures ok <==> old(HasFacility(facilityId))
      ensures ok ==> var i := FacilityIndex(facilityId).value;
                     Statuses() == old(Statuses())[i := old(Statuses())[i].(level := old(Statuses())[i].level + 1)]
      ensures !ok ==> Statuses() == old(Statuses())
    {
      match FacilityIndex(facilityId)
      case None =>
        ok := false;
      case Some(i) =>
        if facilities[i].isUnlocked {
          LevelUp(i);
          ok := true;
        } else {
          ok := false;
        }
    }

    /** What UnlockFacilityWithCost requires before it pays: master data
        for the facility, no unlocked facility with that id yet, and an
        affordable unlock cost. */
    predicate UnlockPermitted(data: FacilityData?, facilityId: string)
      reads this, items, facilities
    {
      data != null && !HasFacility(facilityId) &&
      Affordable(playerMoney, Inventory(), data.unlockMoneyCost, data.unlockItemCosts)
    }

    /** What UpgradeFacilityWithCost requires before it pays: master data
        for the facility, an unlocked facility with that id below the
        maximum level, and an affordable upgrade cost. */
    predicate UpgradePermitted(data: FacilityData?, facilityId: string)
      reads this, items, facilities
    {
      data != null &&
      match FacilityIndex(facilityId)
      case None => false
      case Some(i) =>
        facilities[i].isUnlocked && facilities[i].level < data.maxLevel &&
        Affordable(playerMoney, Inventory(), data.upgradeMoneyCost, data.upgradeItemCosts)
    }

    /** The checks of the paid unlock, in the order the source makes them. */
    method CheckUnlock(facilityData: FacilityData?, facilityId: string) returns (ok: bool)
      ensures ok == UnlockPermitted(facilityData, facilityId)
    {
      if facilityData == null {
        return false;
      }
      var found := FacilityIndex(facilityId);
      if found.Some? && facilities[found.value].isUnlocked {
        return false;
      }
      ok := CanAffordFacilityUnlock(facilityData);
    }

    /** The checks of the paid upgrade, in the order the source makes them. */
    method CheckUpgrade(facilityData: FacilityData?, facilityId: string) returns (ok: bool)
      ensures ok == UpgradePermitted(facilityData, facilityId)
    {
      if facilityData == null {
        return false;
      }
      var found := FacilityIndex(facilityId);
      if found.None? || !facilities[found.value].isUnlocked {
        return false;
      }
      if facilities[found.value].level >= facilityData.maxLevel {
        return false;
      }
      ok := CanAffordFacilityUpgrade(facilityData);
    }

    /** UnlockFacilityWithCost: fails, changing nothing, unless the unlock
        is permitted. Otherwise the cost is paid and the existing facility
        unlocked with the master data's production settings, or a new
        level-1 unlocked facility created from the master data is
        appended. */
    method UnlockFacilityWithCost(master: GameMaster.MasterDatabase, facilityId: string) returns (ok: bool)
      requires Valid()
      modifies this, items, facilities
      ensures Valid()
      ensures ok <==> old(UnlockPermitted(master.GetFacilityData(facilityId), facilityId))
      ensures !ok ==> playerMoney == old(playerMoney) && Inventory() == old(Inventory()) &&
                      facilities == old(facilities) && Statuses() == old(Statuses())
      ensures ok ==> var data := master.GetFacilityData(facilityId);
              HasFacility(facilityId) &&
              playerMoney == old(playerMoney) - (if data.unlockMoneyCost > 0 then data.unlockMoneyCost else 0) &&
              Inventory() == TakenAll(old(Inventory()), data.unlockItemCosts)
      ensures ok && old(FacilityIndex(facilityId)).Some? ==>
                var i := old(FacilityIndex(facilityId)).value;
                facilities == old(facilities) &&
                Statuses() == old(Statuses())[i := FacilityStatus(old(Statuses())[i].level, true,
                                                                   master.GetFacilityData(facilityId).productionConfig)]
      ensures ok && old(FacilityIndex(facilityId)).None? ==>
                |facilities| == |old(facilities)| + 1 && facilities[..|old(facilities)|] == old(facilities) &&
                Statuses()[..|old(facilities)|] == old(Statuses()) &&
                var f := facilities[|old(facilities)|];
                fresh(f) && f.facilityId == facilityId && f.level == 1 && f.isUnlocked &&
                f.productionConfig == master.GetFacilityData(facilityId).productionConfig
    {
      var facilityData := master.GetFacilityData(facilityId);
      ok := CheckUnlock(facilityData, facilityId);
      if !ok {
        return;
      }
      PaidUnlock(FacilityIndex(facilityId), facilityData);
    }

    /** The paying half of the paid unlock: the unlock cost is paid, then
        the facility is unlocked or created. */
    method PaidUnlock(found: Option<nat>, facilityData: FacilityData)
      requires Valid() && found == FacilityIndex(facilityData.facilityId)
      modifies this, items, facilities
      ensures Valid()
      ensures playerMoney ==
              if facilityData.unlockMoneyCost > 0 && old(playerMoney) >= facilityData.unlockMoneyCost
              then old(playerMoney) - facilityData.unlockMoneyCost else old(playerMoney)
      ensures Inventory() == TakenAll(old(Inventory()), facilityData.unlockItemCosts)
      ensures HasFacility(facilityData.facilityId)
      ensures found.Some? ==>
                facilities == old(facilities) &&
                Statuses() == old(Statuses())[found.value := FacilityStatus(old(Statuses())[found.value].level, true,
                                                                           facilityData.productionConfig)]
      ensures found.None? ==>
                |facilities| == |old(facilities)| + 1 && facilities[..|old(facilities)|] == old(facilities) &&
                Statuses()[..|old(facilities)|] == old(Statuses()) &&
                var f := facilities[|old(facilities)|];
                fresh(f) && f.facilityId == facilityData.facilityId && f.level == 1 && f.isUnlocked &&
                f.productionConfig == facilityData.productionConfig
    {
      PayCosts(facilityData.unlockMoneyCost, facilityData.unlockItemCosts);
      Unlock(found, facilityData);
    }

    /** The unlocking half of the paid unlock: the facility found is
        unlocked with the master data's production settings, or a new one
        made from the master data is appended. */
    method Unlock(found: Option<nat>, facilityData: FacilityData)
      requires Valid() && found == FacilityIndex(facilityData.facilityId)
      modifies this, facilities
      ensures Valid()
      ensures playerMoney == old(playerMoney) && items == old(items) && Inventory() == old(Inventory())
      ensures HasFacility(facilityData.facilityId)
      ensures found.Some? ==>
                facilities == old(facilities) &&
                Statuses() == old(Statuses())[found.value := FacilityStatus(old(Statuses())[found.value].level, true,
                                                                           facilityData.productionConfig)]
      ensures found.None? ==>
                |facilities| == |old(facilities)| + 1 && facilities[..|old(facilities)|] == old(facilities) &&
                Statuses()[..|old(facilities)|] == old(Statuses()) &&
                var f := facilities[|old(facilities)|];
                fresh(f) && f.facilityId == facilityData.facilityId && f.level == 1 && f.isUnlocked &&
                f.productionConfig == facilityData.productionConfig
    {
      if found.Some? {
        SetUnlocked(found.value, Some(facilityData.productionConfig));
      } else {
        AppendFacility(facilityData);
      }
    }

    /** A new level-1 unlocked facility made from master data whose id is
        not yet used goes at the end. */
    method AppendFacility(facilityData: FacilityData)
      requires Valid() && FacilityIndex(facilityData.facilityId).None?
      modifies this
      ensures Valid()
      ensures |facilities| == |old(facilities)| + 1 && facilities[..|old(facilities)|] == old(facilities)
      ensures Statuses()[..|old(facilities)|] == old(Statuses())
      ensures var f := facilities[|old(facilities)|];
              fresh(f) && f.facilityId == facilityData.facilityId && f.level == 1 && f.isUnlocked &&
              f.productionConfig == facilityData.productionConfig
      ensures HasFacility(facilityData.facilityId)
      ensures playerMoney == old(playerMoney) && items == old(items)
    {
      var f := facilityData.CreateFacility(1, true);
      FindIndexAppend(facilities, f, FacilityIs(facilityData.facilityId));
      facilities := facilities + [f];
      assert facilities[..|old(facilities)|] == old(facilities);
    }

    /** UpgradeFacilityWithCost: fails, changing nothing, unless the
        upgrade is permitted. Otherwise the cost is paid and the facility
        goes up one level, so it never passes the maximum. */
    method UpgradeFacilityWithCost(master: GameMaster.MasterDatabase, facilityId: string) returns (ok: bool)
      requires Valid()
      modifies this, items, facilities
      ensures Valid()
      ensures ok <==> old(UpgradePermitted(master.GetFacilityData(facilityId), facilityId))
      ensures !ok ==> playerMoney == old(playerMoney) && Inventory() == old(Inventory()) &&
                      facilities == old(facilities) && Statuses() == old(Statuses())
      ensures ok ==> var data := master.GetFacilityData(facilityId);
              var i := old(FacilityIndex(facilityId)).value;
              facilities == old(facilities) &&
              playerMoney == old(playerMoney) - (if data.upgradeMoneyCost > 0 then data.upgradeMoneyCost else 0) &&
              Inventory() == TakenAll(old(Inventory()), data.upgradeItemCosts) &&
              Statuses() == old(Statuses())[i := old(Statuses())[i].(level := old(Statuses())[i].level + 1)] &&
              facilities[i].level <= data.maxLevel
    {
      var facilityData := master.GetFacilityData(facilityId);
      ok := CheckUpgrade(facilityData, facilityId);
      if !ok {
        return;
      }
      PaidLevelUp(FacilityIndex(facilityId).value, facilityData.upgradeMoneyCost, facilityData.upgradeItemCosts);
    }

    /** The paying half of the paid upgrade: the cost is paid, then the
        facility at i goes up one level. */
    method PaidLevelUp(i: nat, moneyCost: int, costs: seq<ItemCost>)
      requires Valid() && i < |facilities|
      modifies this, items, facilities
      ensures Valid()
      ensures facilities == old(facilities)
      ensures playerMoney ==
              if moneyCost > 0 && old(playerMoney) >= moneyCost then old(playerMoney) - moneyCost else old(playerMoney)
      ensures Inventory() == TakenAll(old(Inventory()), costs)
      ensures facilities[i].level == old(facilities[i].level) + 1
      ensures Statuses() == old(Statuses())[i := old(Statuses())[i].(level := old(Statuses())[i].level + 1)]
    {
      PayCosts(moneyCost, costs);
      LevelUp(i);
    }

    /** ClearAllData: no money, no items, no facilities. */
    method ClearAllData()
      modifies this
      ensures Valid() && playerMoney == 0 && items == [] && facilities == []
    {
      playerMoney := 0;
      items := [];
      facilities := [];
    }
  }

  /** The unlocked facilities of a list, in order. */
  function UnlockedOf(fs: seq<Facility>): (r: seq<Facility>)
    reads fs
    ensures forall i :: 0 <= i < |r| ==> r[i].isUnlocked && r[i] in fs
    ensures forall i :: 0 <= i < |fs| && fs[i].isUnlocked ==> fs[i] in r
  {
    if |fs| == 0 then []
    else
      var rest := UnlockedOf(fs[1..]);
      assert forall i :: 1 <= i < |fs| ==> fs[i] == fs[1..][i - 1];
      if fs[0].isUnlocked then [fs[0]] + rest else rest
  }
}
