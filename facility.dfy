/** A player's facility (identity, level, unlock flag, its production
    settings and its production record) and the facility master data it is
    created from. */
module Facilities {
  import opened Wrappers
  import GameItems
  import opened FacilityProduction

  datatype FacilityType = Production | Storage | Defense | Research | Other

  class Facility {
    const facilityId: string
    const facilityName: string
    const description: string
    var level: int
    var isUnlocked: bool
    const facilityType: FacilityType
    var productionConfig: ProductionConfig
    /** Only the constructor assigns the production record. */
    const productionState: ProductionState

    /** The arguments are copied; a given configuration is shared, a null
        one (None) replaced by a new default configuration, and the
        production record always starts afresh. */
    constructor(id: string, name: string, desc: string, lvl: int, unlocked: bool,
                facilityType: FacilityType, prodConfig: Option<ProductionConfig>)
      ensures facilityId == id && facilityName == name && description == desc
      ensures level == lvl && isUnlocked == unlocked && this.facilityType == facilityType
      ensures prodConfig.Some? ==> productionConfig == prodConfig.value
      ensures prodConfig.None? ==> fresh(productionConfig) && !productionConfig.IsValid() &&
                                   productionConfig.productionType == ProductionType.None &&
                                   productionConfig.itemProductions == Some([])
      ensures fresh(productionState)
      ensures productionState.totalProductionCount == 0 && productionState.totalMoneyProduced == 0
      ensures productionState.totalItemsProduced == map[] && !productionState.isPaused
      ensures productionState.lastProductionTime == 0.0
    {
      facilityId := id;
      facilityName := name;
      description := desc;
      level := lvl;
      isUnlocked := unlocked;
      this.facilityType := facilityType;
      if prodConfig.Some? {
        productionConfig := prodConfig.value;
      } else {
        productionConfig := new ProductionConfig();
      }
      productionState := new ProductionState();
    }

    /** UpdateProductionConfig: the facility now uses the given settings. */
    method UpdateProductionConfig(newConfig: ProductionConfig)
      modifies this
      ensures productionConfig == newConfig
      ensures level == old(level) && isUnlocked == old(isUnlocked)
    {
      productionConfig := newConfig;
    }

    method SetProductionType(t: ProductionType)
      modifies productionConfig
      ensures productionConfig.productionType == t
      ensures productionConfig.moneyAmount == old(productionConfig.moneyAmount)
      ensures productionConfig.itemProductions == old(productionConfig.itemProductions)
      ensures productionConfig.productionInterval == old(productionConfig.productionInterval)
      ensures productionConfig.enableAutoProduction == old(productionConfig.enableAutoProduction)
    {
      productionConfig.productionType := t;
    }

    method SetMoneyAmount(amount: int)
      modifies productionConfig
      ensures productionConfig.moneyAmount == amount
      ensures productionConfig.productionType == old(productionConfig.productionType)
      ensures productionConfig.itemProductions == old(productionConfig.itemProductions)
      ensures productionConfig.productionInterval == old(productionConfig.productionInterval)
      ensures productionConfig.enableAutoProduction == old(productionConfig.enableAutoProduction)
    {
      productionConfig.moneyAmount := amount;
    }

    method SetProductionInterval(interval: real)
      modifies productionConfig
      ensures productionConfig.productionInterval == interval
      ensures productionConfig.productionType == old(productionConfig.productionType)
      ensures productionConfig.moneyAmount == old(productionConfig.moneyAmount)
      ensures productionConfig.itemProductions == old(productionConfig.itemProductions)
      ensures productionConfig.enableAutoProduction == old(productionConfig.enableAutoProduction)
    {
      productionConfig.productionInterval := interval;
    }

    method SetAutoProductionEnabled(enabled: bool)
      modifies productionConfig
      ensures productionConfig.enableAutoProduction == enabled
      ensures productionConfig.productionType == old(productionConfig.productionType)
      ensures productionConfig.moneyAmount == old(productionConfig.moneyAmount)
      ensures productionConfig.itemProductions == old(productionConfig.itemProductions)
      ensures productionConfig.productionInterval == old(productionConfig.productionInterval)
    {
      productionConfig.enableAutoProduction := enabled;
    }

    /** AddItemProduction(string, int): one entry naming the item by id is
        appended, a null list being replaced by a new one first. */
    method AddItemProduction(itemId: string, quantity: int)
      modifies productionConfig
      ensures productionConfig.itemProductions ==
              Some(old(productionConfig.itemProductions).GetOr([]) + [ItemProduction(Some(itemId), null, quantity)])
      ensures productionConfig.productionType == old(productionConfig.productionType)
      ensures productionConfig.moneyAmount == old(productionConfig.moneyAmount)
      ensures productionConfig.productionInterval == old(productionConfig.productionInterval)
      ensures productionConfig.enableAutoProduction == old(productionConfig.enableAutoProduction)
    {
      if productionConfig.itemProductions.None? {
        productionConfig.itemProductions := Some([]);
      }
      productionConfig.itemProductions :=
        Some(productionConfig.itemProductions.value + [ItemProduction(Some(itemId), null, quantity)]);
    }

    /** AddItemProduction(ItemData, int): the same, naming the item through
        its master data; the entry's own id stays null. */
    method AddItemProductionFromData(itemData: GameItems.ItemData?, quantity: int)
      modifies productionConfig
      ensures productionConfig.itemProductions ==
              Some(old(productionConfig.itemProductions).GetOr([]) + [ItemProduction(Option.None, itemData, quantity)])
      ensures productionConfig.productionType == old(productionConfig.productionType)
      ensures productionConfig.moneyAmount == old(productionConfig.moneyAmount)
      ensures productionConfig.productionInterval == old(productionConfig.productionInterval)
      ensures productionConfig.enableAutoProduction == old(productionConfig.enableAutoProduction)
    {
      if productionConfig.itemProductions.None? {
        productionConfig.itemProductions := Some([]);
      }
      productionConfig.itemProductions :=
        Some(productionConfig.itemProductions.value + [ItemProduction(Option.None, itemData, quantity)]);
    }

    /** ResetProductionState: the production record's Reset. */
    method ResetProductionState()
      modifies productionState
      ensures productionState.lastProductionTime == 0.0 && productionState.totalProductionCount == 0
      ensures productionState.totalMoneyProduced == 0 && productionState.totalItemsProduced == map[]
      ensures !productionState.isPaused
    {
      productionState.Reset();
    }
  }

  function FacilityIs(facilityId: string): Facility -> bool {
    (f: Facility) => f.facilityId == facilityId
  }

  /** FacilityData: the master data of one facility. */
  class FacilityData {
    const facilityId: string
    const facilityName: string
    const description: string
    const facilityType: FacilityType
    const maxLevel: int
    const unlockMoneyCost: int
    const unlockItemCosts: seq<GameItems.ItemCost>
    const upgradeMoneyCost: int
    const upgradeItemCosts: seq<GameItems.ItemCost>
    const productionConfig: ProductionConfig

    constructor(id: string, name: string, desc: string, t: FacilityType, maxLevel: int,
                unlockMoney: int, unlockItems: seq<GameItems.ItemCost>,
                upgradeMoney: int, upgradeItems: seq<GameItems.ItemCost>, config: ProductionConfig)
      ensures facilityId == id && facilityName == name && description == desc && facilityType == t
      ensures this.maxLevel == maxLevel && unlockMoneyCost == unlockMoney && unlockItemCosts == unlockItems
      ensures upgradeMoneyCost == upgradeMoney && upgradeItemCosts == upgradeItems
      ensures productionConfig == config
    {
      facilityId := id;
      facilityName := name;
      description := desc;
      facilityType := t;
      this.maxLevel := maxLevel;
      unlockMoneyCost := unlockMoney;
      unlockItemCosts := unlockItems;
      upgradeMoneyCost := upgradeMoney;
      upgradeItemCosts := upgradeItems;
      productionConfig := config;
    }

    /** CreateFacility: a new facility with this data's identity and type,
        sharing this data's production settings. */
    method CreateFacility(lvl: int, unlocked: bool) returns (f: Facility)
      ensures fresh(f) && fresh(f.productionState)
      ensures f.facilityId == facilityId && f.facilityName == facilityName && f.description == description
      ensures f.level == lvl && f.isUnlocked == unlocked && f.facilityType == facilityType
      ensures f.productionConfig == productionConfig
      ensures f.productionState.totalProductionCount == 0 && !f.productionState.isPaused
    {
      f := new Facility(facilityId, facilityName, description, lvl, unlocked, facilityType, Some(productionConfig));
    }
  }
}
