/** Production settings of a facility (what it produces, how much, how
    often, whether automatic production is on) and its accumulated
    production record. */
module FacilityProduction {
  import opened Wrappers
  import GameItems

  datatype ProductionType = None | Money | Item | Both

  /** ItemProduction: one item a facility produces, named by its own id or
      through an item master data asset. The own id is None while it is
      null, as it is in an entry built from master data alone. */
  datatype ItemProduction = ItemProduction(itemId: Option<string>, itemData: GameItems.ItemData?, quantity: int)
  {
    /** GetItemId: the master data's id takes precedence when the asset is
        set; otherwise the own id, which may be null. */
    function GetItemId(): (id: Option<string>)
      ensures itemData != null ==> id == Some(itemData.itemId)
      ensures itemData == null ==> id == itemId
    {
      if itemData != null then Some(itemData.itemId) else itemId
    }
  }

  class ProductionConfig {
    var productionType: ProductionType
    var moneyAmount: int
    /** None stands for a null list. */
    var itemProductions: Option<seq<ItemProduction>>
    var productionInterval: real
    var enableAutoProduction: bool

    /** The field initialisers: nothing produced, an empty item list, a
        ten-second interval, automatic production on. */
    constructor()
      ensures productionType == ProductionType.None && moneyAmount == 0 && itemProductions == Some([])
      ensures productionInterval == 10.0 && enableAutoProduction
      ensures !IsValid()
    {
      productionType := ProductionType.None;
      moneyAmount := 0;
      itemProductions := Some([]);
      productionInterval := 10.0;
      enableAutoProduction := true;
    }

    function ProducesMoney(): (r: bool)
      reads this
      ensures r <==> productionType in {Money, Both}
    {
      productionType == Money || productionType == Both
    }

    function ProducesItems(): (r: bool)
      reads this
      ensures r <==> productionType in {Item, Both}
    {
      productionType == Item || productionType == Both
    }

    /** IsValid: the chain of early rejections amounts to this conjunction:
        enabled, producing something, a positive amount for money and a
        non-empty list for items. */
    function IsValid(): (r: bool)
      reads this
      ensures r <==> enableAutoProduction && productionType != ProductionType.None &&
                     (productionType in {Money, Both} ==> moneyAmount > 0) &&
                     (productionType in {Item, Both} ==> itemProductions.Some? && |itemProductions.value| > 0)
    {
      if !enableAutoProduction || productionType == ProductionType.None then false
      else if ProducesMoney() && moneyAmount <= 0 then false
      else if ProducesItems() && (itemProductions.None? || |itemProductions.value| == 0) then false
      else true
    }
  }

  /** A per-id total, absent ids counting zero. */
  function Total(m: map<string, int>, k: string): int {
    if k in m then m[k] else 0
  }

  /** The totals after adding each id's quantity of items into them. */
  function AddTotals(totals: map<string, int>, items: map<string, int>): map<string, int> {
    map k | k in totals.Keys + items.Keys :: Total(totals, k) + Total(items, k)
  }

  /** Adding items creates exactly the missing ids and adds per id. */
  lemma AddTotalsAt(totals: map<string, int>, items: map<string, int>, k: string)
    ensures k in AddTotals(totals, items) <==> k in totals || k in items
    ensures Total(AddTotals(totals, items), k) == Total(totals, k) + Total(items, k)
  {
  }

  /** Recording nothing leaves the totals as they are. */
  lemma AddTotalsNone(totals: map<string, int>)
    ensures AddTotals(totals, map[]) == totals
  {
    var r := AddTotals(totals, map[]);
    assert r.Keys == totals.Keys;
    forall k | k in r ensures r[k] == totals[k] {
      AddTotalsAt(totals, map[], k);
    }
  }

  /** Recording a, then b, is recording their per-id sum. */
  lemma AddTotalsTwice(totals: map<string, int>, a: map<string, int>, b: map<string, int>)
    ensures AddTotals(AddTotals(totals, a), b) == AddTotals(totals, AddTotals(a, b))
  {
    var l := AddTotals(AddTotals(totals, a), b);
    var r := AddTotals(totals, AddTotals(a, b));
    forall k ensures (k in l <==> k in r) && Total(l, k) == Total(r, k) {
      AddTotalsAt(totals, a, k);
      AddTotalsAt(AddTotals(totals, a), b, k);
      AddTotalsAt(a, b, k);
      AddTotalsAt(totals, AddTotals(a, b), k);
    }
    assert l.Keys == r.Keys;
  }

  /** One more id added into the totals. */
  lemma AddTotalsStep(totals: map<string, int>, done: map<string, int>, key: string, v: int)
    requires key !in done
    ensures AddTotals(totals, done[key := v]) ==
            AddTotals(totals, done)[key := Total(AddTotals(totals, done), key) + v]
  {
    var l := AddTotals(totals, done[key := v]);
    var r := AddTotals(totals, done)[key := Total(AddTotals(totals, done), key) + v];
    forall k | k in l ensures k in r && l[k] == r[k] {
      AddTotalsAt(totals, done[key := v], k);
      AddTotalsAt(totals, done, k);
    }
    forall k | k in r ensures k in l {
      AddTotalsAt(totals, done[key := v], k);
      AddTotalsAt(totals, done, k);
    }
  }

  class ProductionState {
    var lastProductionTime: real
    var totalProductionCount: int
    var totalMoneyProduced: int
    var totalItemsProduced: map<string, int>
    var isPaused: bool

    constructor()
      ensures lastProductionTime == 0.0 && totalProductionCount == 0 && totalMoneyProduced == 0
      ensures totalItemsProduced == map[] && !isPaused
    {
      lastProductionTime := 0.0;
      totalProductionCount := 0;
      totalMoneyProduced := 0;
      totalItemsProduced := map[];
      isPaused := false;
    }

    /** Reset: back to the initial record, and no longer paused. */
    method Reset()
      modifies this
      ensures lastProductionTime == 0.0 && totalProductionCount == 0 && totalMoneyProduced == 0
      ensures totalItemsProduced == map[] && !isPaused
    {
      lastProductionTime := 0.0;
      totalProductionCount := 0;
      totalMoneyProduced := 0;
      totalItemsProduced := map[];
      isPaused := false;
    }

    /** RecordProduction: one more production, its money added to the
        money total and, unless the map is null (None), each id's quantity
        added into the item totals. */
    method RecordProduction(money: int, items: Option<map<string, int>>)
      modifies this
      ensures totalProductionCount == old(totalProductionCount) + 1
      ensures totalMoneyProduced == old(totalMoneyProduced) + money
      ensures items.Some? ==> totalItemsProduced == AddTotals(old(totalItemsProduced), items.value)
      ensures items.None? ==> totalItemsProduced == old(totalItemsProduced)
      ensures lastProductionTime == old(lastProductionTime) && isPaused == old(isPaused)
    {
      totalProductionCount := totalProductionCount + 1;
      totalMoneyProduced := totalMoneyProduced + money;
      if items.Some? {
        var all := items.value;
        var totals := totalItemsProduced;
        var pending := all.Keys;
        AddTotalsNone(totals);
        assert all - pending == map[];
        while pending != {}
          modifies {}
          invariant pending <= all.Keys
          invariant totals == AddTotals(old(totalItemsProduced), all - pending)
          decreases pending
        {
          var key :| key in pending;
          var done := all - pending;
          AddTotalsStep(old(totalItemsProduced), done, key, all[key]);
          assert all - (pending - {key}) == done[key := all[key]];
          if key in totals {
            totals := totals[key := totals[key] + all[key]];
          } else {
            totals := totals[key := all[key]];
          }
          pending := pending - {key};
        }
        assert all - pending == all;
        totalItemsProduced := totals;
      }
    }
  }
}
