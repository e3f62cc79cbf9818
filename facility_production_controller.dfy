/** The production controller: the facilities it manages, and the per-frame
    pass that lets each eligible facility produce once its interval has
    elapsed. The current time (the engine clock) is a parameter. */
module ProductionControl {
  import opened Wrappers
  import opened Lists
  import opened FacilityProduction
  import opened Facilities

  // ---------------------------------------------------------------------
  // What one production amounts to, on values.

  /** A production record's fields as a value. */
  datatype Record = Record(lastProductionTime: real, totalProductionCount: int, totalMoneyProduced: int,
                           totalItemsProduced: map<string, int>, isPaused: bool)

  function RecordOf(s: ProductionState): Record
    reads s
  {
    Record(s.lastProductionTime, s.totalProductionCount, s.totalMoneyProduced, s.totalItemsProduced, s.isPaused)
  }

  /** RecordProduction on values: one more production, its money and its
      items added in. */
  function Recorded(r: Record, money: int, items: map<string, int>): Record {
    r.(totalProductionCount := r.totalProductionCount + 1,
       totalMoneyProduced := r.totalMoneyProduced + money,
       totalItemsProduced := AddTotals(r.totalItemsProduced, items))
  }

  /** Every entry names its item: no id is null. */
  predicate NullIdFree(list: seq<ItemProduction>) {
    forall k :: 0 <= k < |list| ==> list[k].GetItemId().Some?
  }

  /** The item map a production builds: each entry's id set to the entry's
      quantity, in list order. */
  function ProducedItems(list: seq<ItemProduction>): map<string, int>
    requires NullIdFree(list)
  {
    if |list| == 0 then map[]
    else
      var last := list[|list| - 1];
      assert NullIdFree(list[..|list| - 1]) by {
        forall k | 0 <= k < |list| - 1 ensures list[..|list| - 1][k] == list[k] { }
      }
      ProducedItems(list[..|list| - 1])[last.GetItemId().value := last.quantity]
  }

  /** An id is in the item map exactly when some entry names it. */
  lemma {:induction false} ProducedItemsKeys(list: seq<ItemProduction>, id: string)
    requires NullIdFree(list)
    ensures id in ProducedItems(list) <==> exists k :: 0 <= k < |list| && list[k].GetItemId() == Some(id)
    decreases |list|
  {
    if |list| > 0 {
      var n := |list| - 1;
      var init := list[..n];
      assert forall k :: 0 <= k < n ==> init[k] == list[k];
      ProducedItemsKeys(init, id);
    }
  }

  /** The value of a produced item is the quantity of the last entry that
      names it: a later entry for the same item replaces an earlier one
      rather than adding to it. */
  lemma {:induction false} ProducedItemsLast(list: seq<ItemProduction>, id: string)
    requires NullIdFree(list) && id in ProducedItems(list)
    ensures exists k :: 0 <= k < |list| && list[k].GetItemId() == Some(id) &&
                        ProducedItems(list)[id] == list[k].quantity &&
                        forall j :: k < j < |list| ==> list[j].GetItemId() != Some(id)
    decreases |list|
  {
    var n := |list| - 1;
    var init := list[..n];
    assert forall k :: 0 <= k < n ==> init[k] == list[k];
    assert ProducedItems(list) == ProducedItems(init)[list[n].GetItemId().value := list[n].quantity];
    if list[n].GetItemId() == Some(id) {
      assert ProducedItems(list)[id] == list[n].quantity;
    } else {
      ProducedItemsLast(init, id);
      var k :| 0 <= k < |init| && init[k].GetItemId() == Some(id) &&
               ProducedItems(init)[id] == init[k].quantity &&
               forall j :: k < j < |init| ==> init[j].GetItemId() != Some(id);
      assert list[k] == init[k];
      assert forall j :: k < j < n ==> list[j] == init[j];
    }
  }

  /** The money a production yields. */
  function ProducedMoney(c: ProductionConfig): int
    reads c
  {
    if c.ProducesMoney() then c.moneyAmount else 0
  }

  /** A production of items stops with an exception before anything is
      recorded: over a null list (NullReferenceException), or at an entry
      whose id is null, which a dictionary refuses as a key
      (ArgumentNullException). */
  predicate ProduceFails(c: ProductionConfig)
    reads c
  {
    c.ProducesItems() && (c.itemProductions.None? || !NullIdFree(c.itemProductions.value))
  }

  /** The items a production yields. */
  function ProducedItemsOf(c: ProductionConfig): map<string, int>
    reads c
  {
    if c.ProducesItems() && !ProduceFails(c) then ProducedItems(c.itemProductions.value) else map[]
  }

  /** Settings that pass IsValid have a list whenever they produce items,
      so they fail only on an entry with a null id. */
  lemma ValidFailsOnlyOnNullId(c: ProductionConfig)
    requires c.IsValid()
    ensures c.ProducesItems() ==> c.itemProductions.Some?
    ensures ProduceFails(c) <==> c.ProducesItems() && !NullIdFree(c.itemProductions.value)
  {
  }

  /** An entry added from null master data has a null id, so settings that
      produce items fail on it: IsValid does not rule this out. */
  lemma NullDataEntryFails(c: ProductionConfig, quantity: int)
    requires c.ProducesItems() && c.itemProductions.Some?
    requires ItemProduction(Option.None, null, quantity) in c.itemProductions.value
    ensures ProduceFails(c)
  {
    var list := c.itemProductions.value;
    var k :| 0 <= k < |list| && list[k] == ItemProduction(Option.None, null, quantity);
    assert list[k].GetItemId().None?;
  }

  /** ProduceFacilityResources: money when the settings produce money, the
      item map when they produce items, recorded as one production; over a
      null item list, or at an entry with a null id, it stops before
      recording. Producing never touches the player store. */
  method ProduceFacilityResources(facility: Facility) returns (completed: bool)
    modifies facility.productionState
    ensures completed <==> !ProduceFails(facility.productionConfig)
    ensures RecordOf(facility.productionState) ==
            if completed
            then Recorded(old(RecordOf(facility.productionState)), ProducedMoney(facility.productionConfig),
                          ProducedItemsOf(facility.productionConfig))
            else old(RecordOf(facility.productionState))
  {
    var config := facility.productionConfig;
    var moneyProduced := 0;
    var itemsProduced: map<string, int> := map[];
    if config.ProducesMoney() {
      moneyProduced := config.moneyAmount;
    }
    if config.ProducesItems() {
      if config.itemProductions.None? {
        return false;
      }
      var list := config.itemProductions.value;
      for k := 0 to |list|
        invariant NullIdFree(list[..k])
        invariant itemsProduced == ProducedItems(list[..k])
      {
        var itemId := list[k].GetItemId();
        if itemId.None? {
          return false;
        }
        assert list[..k + 1][..k] == list[..k];
        itemsProduced := itemsProduced[itemId.value := list[k].quantity];
      }
      assert list[..|list|] == list;
    }
    facility.productionState.RecordProduction(moneyProduced, Some(itemsProduced));
    completed := true;
  }

  /** The conditions under which the per-frame pass produces: unlocked,
      valid settings, not paused, and at least the interval elapsed since
      the last production. */
  predicate Due(f: Facility, now: real)
    reads f, f.productionConfig, f.productionState
  {
    f.isUnlocked && f.productionConfig.IsValid() && !f.productionState.isPaused &&
    now - f.productionState.lastProductionTime >= f.productionConfig.productionInterval
  }

  /** What one production at time now makes of a record. */
  function ProducedAt(f: Facility, r: Record, now: real): Record
    reads f, f.productionConfig
  {
    Recorded(r, ProducedMoney(f.productionConfig), ProducedItemsOf(f.productionConfig)).(lastProductionTime := now)
  }

  class FacilityProductionController {
    var managedFacilities: seq<Facility>

    /** No two managed facilities share a production record (so none is
        managed twice). */
    predicate Valid()
      reads this
    {
      forall a, b :: 0 <= a < b < |managedFacilities| ==>
        managedFacilities[a].productionState != managedFacilities[b].productionState
    }

    /** The production records of the managed facilities. */
    function States(): set<ProductionState>
      reads this
    {
      set k | 0 <= k < |managedFacilities| :: managedFacilities[k].productionState
    }

    constructor()
      ensures managedFacilities == [] && Valid()
    {
      managedFacilities := [];
    }

    /** RegisterFacility: null and facilities already managed are ignored;
        any other facility is appended and its last production time set to
        now. */
    method RegisterFacility(facility: Facility?, now: real)
      requires Valid()
      requires facility != null && facility !in managedFacilities ==> facility.productionState !in States()
      modifies this, if facility != null then {facility.productionState} else {}
      ensures Valid()
      ensures facility == null || facility in old(managedFacilities) ==> managedFacilities == old(managedFacilities)
      ensures facility != null && facility in old(managedFacilities) ==>
                RecordOf(facility.productionState) == old(RecordOf(facility.productionState))
      ensures facility != null && facility !in old(managedFacilities) ==>
                managedFacilities == old(managedFacilities) + [facility] &&
                RecordOf(facility.productionState) ==
                old(RecordOf(facility.productionState)).(lastProductionTime := now)
    {
      if facility == null {
        return;
      }
      if facility in managedFacilities {
        return;
      }
      managedFacilities := managedFacilities + [facility];
      facility.productionState.lastProductionTime := now;
      assert forall k :: 0 <= k < |old(managedFacilities)| ==> managedFacilities[k] == old(managedFacilities)[k];
    }

    /** UnregisterFacility: a managed facility leaves the list (List.Remove,
        the first occurrence); it is then no longer managed. */
    method UnregisterFacility(facility: Facility?)
      requires Valid()
      modifies this
      ensures Valid()
      ensures facility == null ==> managedFacilities == old(managedFacilities)
      ensures facility != null ==> managedFacilities == Remove(old(managedFacilities), facility)
      ensures facility !in managedFacilities
    {
      if facility != null && facility in managedFacilities {
        ValidDistinct();
        RemoveDistinct(managedFacilities, facility);
        var rest := Remove(managedFacilities, facility);
        RemovedRecords(facility, rest);
        managedFacilities := rest;
      }
    }

    /** Distinct records mean distinct facilities. */
    lemma ValidDistinct()
      requires Valid()
      ensures Distinct(managedFacilities)
    {
      forall a, b | 0 <= a < b < |managedFacilities|
        ensures managedFacilities[a] != managedFacilities[b]
      {
        assert managedFacilities[a].productionState != managedFacilities[b].productionState;
      }
    }

    /** Removing a facility keeps the records distinct. */
    lemma RemovedRecords(facility: Facility, rest: seq<Facility>)
      requires Valid() && facility in managedFacilities && rest == Remove(managedFacilities, facility)
      ensures forall a, b :: 0 <= a < b < |rest| ==> rest[a].productionState != rest[b].productionState
    {
      var i := IndexOf(managedFacilities, facility);
      forall a, b | 0 <= a < b < |rest|
        ensures rest[a].productionState != rest[b].productionState
      {
        RemoveIndex(managedFacilities, facility, a);
        RemoveIndex(managedFacilities, facility, b);
        var a' := if a < i then a else a + 1;
        var b' := if b < i then b else b + 1;
        assert rest[a] == managedFacilities[a'] && rest[b] == managedFacilities[b'] && a' < b';
      }
    }

    /** Where the first managed facility with that id sits, if anywhere. */
    function ManagedIndex(facilityId: string): Option<nat>
      reads this
    {
      FindIndex(managedFacilities, FacilityIs(facilityId))
    }

    /** The pass gets as far as the facility at k: no facility before it
        is due with settings that make its production fail. */
    predicate Reached(k: nat, now: real)
      requires k <= |managedFacilities|
      reads this, set j | 0 <= j < |managedFacilities| :: managedFacilities[j]
      reads set j | 0 <= j < |managedFacilities| :: managedFacilities[j].productionConfig
      reads States()
    {
      forall j :: 0 <= j < k ==>
        !(Due(managedFacilities[j], now) && ProduceFails(managedFacilities[j].productionConfig))
    }

    /** UpdateFacilityProduction: every facility due at time now produces
        once and its last production time becomes now; every other record
        stays as it was. A production that fails throws out of the pass, so
        that facility and every one after it keep their records for this
        frame; completed says whether the pass got through the list. */
    method UpdateFacilityProduction(now: real) returns (completed: bool)
      requires Valid()
      modifies States()
      ensures completed <==> old(Reached(|managedFacilities|, now))
      ensures forall k :: 0 <= k < |managedFacilities| ==>
                RecordOf(managedFacilities[k].productionState) ==
                if old(Reached(k, now)) && old(Due(managedFacilities[k], now)) &&
                   !ProduceFails(managedFacilities[k].productionConfig)
                then ProducedAt(managedFacilities[k], old(RecordOf(managedFacilities[k].productionState)), now)
                else old(RecordOf(managedFacilities[k].productionState))
    {
      for k := 0 to |managedFacilities|
        invariant old(Reached(k, now))
        invariant forall j :: 0 <= j < k ==>
                    RecordOf(managedFacilities[j].productionState) ==
                    if old(Due(managedFacilities[j], now))
                    then ProducedAt(managedFacilities[j], old(RecordOf(managedFacilities[j].productionState)), now)
                    else old(RecordOf(managedFacilities[j].productionState))
        invariant forall j :: k <= j < |managedFacilities| ==>
                    RecordOf(managedFacilities[j].productionState) == old(RecordOf(managedFacilities[j].productionState))
      {
        var aborted := ProduceIfDue(k, now);
        if aborted {
          return false;
        }
      }
      completed := true;
    }

    /** One step of the per-frame pass, for the facility at k; aborted when
        the facility is due and its production fails. */
    method ProduceIfDue(k: nat, now: real) returns (aborted: bool)
      requires Valid() && k < |managedFacilities|
      modifies managedFacilities[k].productionState
      ensures aborted <==> old(Due(managedFacilities[k], now)) && ProduceFails(managedFacilities[k].productionConfig)
      ensures RecordOf(managedFacilities[k].productionState) ==
              if old(Due(managedFacilities[k], now)) && !aborted
              then ProducedAt(managedFacilities[k], old(RecordOf(managedFacilities[k].productionState)), now)
              else old(RecordOf(managedFacilities[k].productionState))
      ensures forall j :: 0 <= j < |managedFacilities| && j != k ==>
                RecordOf(managedFacilities[j].productionState) == old(RecordOf(managedFacilities[j].productionState))
    {
      var facility := managedFacilities[k];
      forall j | 0 <= j < |managedFacilities| && j != k
        ensures managedFacilities[j].productionState != facility.productionState
      {
        if j < k {
          assert managedFacilities[j].productionState != managedFacilities[k].productionState;
        } else {
          assert managedFacilities[k].productionState != managedFacilities[j].productionState;
        }
      }
      if !facility.isUnlocked || !facility.productionConfig.IsValid() {
        return false;
      }
      if facility.productionState.isPaused {
        return false;
      }
      var elapsed := now - facility.productionState.lastProductionTime;
      if elapsed >= facility.productionConfig.productionInterval {
        var completed := ProduceFacilityResources(facility);
        if !completed {
          return true;
        }
        facility.productionState.lastProductionTime := now;
      }
      aborted := false;
    }

    /** SetFacilityProductionPaused: the first managed facility with that
        id is paused or resumed; no other record changes. */
    method SetFacilityProductionPaused(facilityId: string, paused: bool)
      requires Valid()
      modifies States()
      ensures ManagedIndex(facilityId).None? ==>
                forall j :: 0 <= j < |managedFacilities| ==>
                  RecordOf(managedFacilities[j].productionState) == old(RecordOf(managedFacilities[j].productionState))
      ensures ManagedIndex(facilityId).Some? ==>
                var i := ManagedIndex(facilityId).value;
                forall j :: 0 <= j < |managedFacilities| ==>
                  RecordOf(managedFacilities[j].productionState) ==
                  if j == i then old(RecordOf(managedFacilities[j].productionState)).(isPaused := paused)
                  else old(RecordOf(managedFacilities[j].productionState))
    {
      match ManagedIndex(facilityId)
      case None =>
      case Some(i) =>
        var facility := managedFacilities[i];
        facility.productionState.isPaused := paused;
        forall j | 0 <= j < |managedFacilities| && j != i
          ensures managedFacilities[j].productionState != facility.productionState
        {
          if j < i {
            assert managedFacilities[j].productionState != managedFacilities[i].productionState;
          } else {
            assert managedFacilities[i].productionState != managedFacilities[j].productionState;
          }
        }
    }

    /** SetAllProductionPaused: every managed record is paused or resumed,
        and nothing else in them changes. */
    method SetAllProductionPaused(paused: bool)
      modifies States()
      ensures forall j :: 0 <= j < |managedFacilities| ==>
                RecordOf(managedFacilities[j].productionState) ==
                old(RecordOf(managedFacilities[j].productionState)).(isPaused := paused)
    {
      for k := 0 to |managedFacilities|
        invariant forall j :: 0 <= j < k ==> managedFacilities[j].productionState.isPaused == paused
        invariant forall j :: 0 <= j < |managedFacilities| ==>
                    RecordOf(managedFacilities[j].productionState).(isPaused := paused) ==
                    old(RecordOf(managedFacilities[j].productionState)).(isPaused := paused)
      {
        managedFacilities[k].productionState.isPaused := paused;
      }
    }

    /** ManualProduceResources: the first managed facility with that id
        produces, if it is unlocked, whatever its settings' validity, pause
        or interval, and its last production time becomes now; a production
        that fails leaves the record as it was. */
    method ManualProduceResources(facilityId: string, now: real)
      requires Valid()
      modifies States()
      ensures forall j :: 0 <= j < |managedFacilities| ==>
                RecordOf(managedFacilities[j].productionState) ==
                if old(ManagedIndex(facilityId)) == Some(j) && managedFacilities[j].isUnlocked &&
                   !ProduceFails(managedFacilities[j].productionConfig)
                then ProducedAt(managedFacilities[j], old(RecordOf(managedFacilities[j].productionState)), now)
                else old(RecordOf(managedFacilities[j].productionState))
    {
      match ManagedIndex(facilityId)
      case None =>
      case Some(i) =>
        var facility := managedFacilities[i];
        forall j | 0 <= j < |managedFacilities| && j != i
          ensures managedFacilities[j].productionState != facility.productionState
        {
          if j < i {
            assert managedFacilities[j].productionState != managedFacilities[i].productionState;
          } else {
            assert managedFacilities[i].productionState != managedFacilities[j].productionState;
          }
        }
        if facility.isUnlocked {
          var completed := ProduceFacilityResources(facility);
          if completed {
            facility.productionState.lastProductionTime := now;
          }
        }
    }

    /** GetFacilityProductionState: the record of the first managed
        facility with that id, or null. */
    function GetFacilityProductionState(facilityId: string): (r: ProductionState?)
      reads this
      ensures r == null <==> forall i :: 0 <= i < |managedFacilities| ==> managedFacilities[i].facilityId != facilityId
      ensures r != null ==>
                exists i :: 0 <= i < |managedFacilities| && managedFacilities[i].productionState == r &&
                            managedFacilities[i].facilityId == facilityId &&
                            forall j :: 0 <= j < i ==> managedFacilities[j].facilityId != facilityId
    {
      match ManagedIndex(facilityId)
      case None => null
      case Some(i) => managedFacilities[i].productionState
    }

    /** ResetAllProductionStates: every managed record back to its initial
        values, unpaused. */
    method ResetAllProductionStates()
      modifies States()
      ensures forall j :: 0 <= j < |managedFacilities| ==>
                RecordOf(managedFacilities[j].productionState) == Record(0.0, 0, 0, map[], false)
    {
      for k := 0 to |managedFacilities|
        invariant forall j :: 0 <= j < k ==>
                    RecordOf(managedFacilities[j].productionState) == Record(0.0, 0, 0, map[], false)
      {
        managedFacilities[k].ResetProductionState();
      }
    }
  }
}
