/**
 * The dashboard's state (the `App` component of App.tsx): the imported
 * orders and cost rows, the ad spend, the set of expanded table rows and
 * the fee configuration, with the three upload handlers and rate learning
 * that change them, and the derived per-order table and totals.
 */
module Dashboard {
  import opened Wrappers
  import opened Cells
  import opened Types
  import opened ExcelParser
  import opened FeeEngine
  import opened RateLearner
  import opened Stats

  /** What a file input hands a handler: no file, a file the workbook reader rejects, or its decoded first sheet. */
  datatype Upload<T> = NoFile | Unreadable | Decoded(sheet: T)

  /** 1 yuan = 2425 rupiah, 9.5% commission, 4.5% service, 1250 rupiah processing, XTRA off at 5%, nothing learned. */
  const DefaultConfig: AppConfig := AppConfig(2425.0, 0.095, 0.045, 1250.0, false, 0.05, map[])

  /** The key of a table row in the expanded set: `${orderId}-${sku}`. */
  function RowKey(orderId: Cell, sku: string): (r: string)
    ensures |r| == |CellString(orderId)| + 1 + |sku|
    ensures r[..|CellString(orderId)|] == CellString(orderId)
    ensures r[|CellString(orderId)|] == '-' && r[|CellString(orderId)| + 1..] == sku
  {
    CellString(orderId) + "-" + sku
  }

  /** Adds a key that is absent, removes one that is present. */
  function Toggle(keys: set<string>, key: string): (r: set<string>)
    ensures key in r <==> key !in keys
    ensures forall k :: k != key ==> (k in r <==> k in keys)
  {
    if key in keys then keys - {key} else keys + {key}
  }

  lemma ToggleTwice(keys: set<string>, key: string)
    ensures Toggle(Toggle(keys, key), key) == keys
  {
  }

  class App {
    var orders: seq<OrderRow>
    var costs: seq<CostRow>
    var totalAdsSpend: real
    var expandedOrders: set<string>
    var config: AppConfig

    /** Profit is converted at a positive exchange rate. */
    predicate Valid()
      reads this
    {
      config.exchangeRate > 0.0
    }

    constructor()
      ensures Valid()
      ensures orders == [] && costs == [] && totalAdsSpend == 0.0 && expandedOrders == {}
      ensures config == DefaultConfig
    {
      orders := [];
      costs := [];
      totalAdsSpend := 0.0;
      expandedOrders := {};
      config := DefaultConfig;
    }

    /** `toggleExpand`: shows or hides the fee breakdown of one table row. */
    method ToggleExpand(orderId: Cell, sku: string)
      requires Valid()
      modifies this
      ensures Valid()
      ensures expandedOrders == Toggle(old(expandedOrders), RowKey(orderId, sku))
      ensures orders == old(orders) && costs == old(costs) && totalAdsSpend == old(totalAdsSpend)
      ensures config == old(config)
    {
      var key := RowKey(orderId, sku);
      var next := expandedOrders;
      if key in next {
        next := next - {key};
      } else {
        next := next + {key};
      }
      expandedOrders := next;
    }

    /**
     * `handleOrderUpload`: a sheet that imports replaces the orders and
     * clears the cost rows, the ad spend and the expanded rows; anything
     * else changes nothing. The result says whether the import happened.
     */
    method HandleOrderUpload(upload: Upload<seq<Record>>) returns (imported: bool)
      requires Valid()
      modifies this
      ensures Valid()
      ensures imported <==> upload.Decoded? && ParseOrders(upload.sheet).Ok?
      ensures (orders, costs, totalAdsSpend, expandedOrders, config)
           == if imported then (ParseOrders(upload.sheet).value, [], 0.0, {}, old(config))
              else old((orders, costs, totalAdsSpend, expandedOrders, config))
    {
      imported := false;
      if upload.Decoded? {
        var data := ImportOrders(upload.sheet);
        if data.Ok? {
          orders := data.value;
          costs := [];
          totalAdsSpend := 0.0;
          expandedOrders := {};
          imported := true;
        }
      }
    }

    /** `handleAdsUpload`: a readable sheet sets the ad spend and nothing else. */
    method HandleAdsUpload(upload: Upload<Grid>) returns (imported: bool)
      requires Valid()
      modifies this
      ensures Valid()
      ensures imported <==> upload.Decoded?
      ensures totalAdsSpend == if imported then AdsSpend(upload.sheet, AdsHeaders) else old(totalAdsSpend)
      ensures orders == old(orders) && costs == old(costs) && expandedOrders == old(expandedOrders)
      ensures config == old(config)
    {
      imported := false;
      if upload.Decoded? {
        var spend := ParseAds(upload.sheet);
        totalAdsSpend := spend;
        imported := true;
      }
    }

    /** `handleCostUpload`: a sheet whose header is found replaces the cost rows and nothing else. */
    method HandleCostUpload(upload: Upload<Grid>) returns (imported: bool)
      requires Valid()
      modifies this
      ensures Valid()
      ensures imported <==> upload.Decoded? && CostSheet(upload.sheet, CostColumns).Ok?
      ensures costs == if imported then CostSheet(upload.sheet, CostColumns).value else old(costs)
      ensures orders == old(orders) && totalAdsSpend == old(totalAdsSpend)
      ensures expandedOrders == old(expandedOrders) && config == old(config)
    {
      imported := false;
      if upload.Decoded? {
        var data := ParseCosts(upload.sheet);
        if data.Ok? {
          costs := data.value;
          imported := true;
        }
      }
    }

    /**
     * `learnCommissionRates`: learns from the current orders into a copy of
     * the SKU rate map, and installs the copy only when some rate changed.
     */
    method LearnCommissionRates() returns (learnedCount: nat)
      requires Valid()
      modifies this
      ensures Valid()
      ensures learnedCount == Learn(orders, old(config).skuCommissionRateMap).count
      ensures config == if learnedCount > 0
                        then old(config).(skuCommissionRateMap := Learn(orders, old(config).skuCommissionRateMap).rates)
                        else old(config)
      ensures orders == old(orders) && costs == old(costs) && totalAdsSpend == old(totalAdsSpend)
      ensures expandedOrders == old(expandedOrders)
    {
      var newSkuMap, count := LearnRates(orders, config.skuCommissionRateMap);
      if count > 0 {
        config := config.(skuCommissionRateMap := newSkuMap);
      }
      learnedCount := count;
    }

    /** The per-order table. */
    function CalculatedData(): (r: seq<CalculatedOrder>)
      reads this
      requires Valid()
      ensures |r| == |orders|
      ensures forall i :: 0 <= i < |orders| ==> r[i].order == orders[i]
      ensures forall i :: 0 <= i < |orders| ==> (r[i].isMatchedCost <==> CostFor(costs, orders[i].sku).Some?)
      ensures forall i :: 0 <= i < |orders| ==> r[i] == CalculateOrder(orders[i], CostFor(costs, orders[i].sku), config)
    {
      CalculateAll(orders, costs, config)
    }

    /** The dashboard totals over the per-order table. */
    method CurrentStats() returns (s: Stats)
      requires Valid()
      ensures s == StatsOf(TallyOf(CalculatedData()), config.exchangeRate, totalAdsSpend, |costs|)
    {
      s := ComputeStats(CalculatedData(), config.exchangeRate, totalAdsSpend, |costs|);
    }
  }

  /** Right after an order import no order is matched to a cost, since the cost rows were cleared. */
  lemma {:induction false} FreshOrdersUnmatched(orders: seq<OrderRow>, config: AppConfig, i: nat)
    requires config.exchangeRate > 0.0 && i < |orders|
    ensures !CalculateAll(orders, [], config)[i].isMatchedCost
  {
    CostForMissing([], orders[i].sku);
  }

  /** Learned rates never change an order that reports its own commission. */
  lemma OwnCommissionIgnoresLearnedRates(order: OrderRow, item: Option<CostRow>, config: AppConfig,
                                         learned: map<string, real>)
    requires config.exchangeRate > 0.0 && order.rawCommissionFee > 0.0
    ensures CalculateOrder(order, item, config.(skuCommissionRateMap := learned))
         == CalculateOrder(order, item, config)
  {
  }
}
