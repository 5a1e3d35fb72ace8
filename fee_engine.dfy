/**
 * The per-order profit computation of the dashboard (the `calculatedData`
 * memo of App.tsx): cost matching by SKU, the commission waterfall, the
 * service, processing and XTRA fees, net income in rupiah and net profit in
 * yuan, with every money field of a cancelled or failed order forced to 0.
 */
module FeeEngine {
  import opened Wrappers
  import opened Types
  import opened Seqs

  // ---------------------------------------------------------------------
  // Cost matching

  /** `costs.forEach(c => costMap.set(c.sku, c))`: a later row for a SKU replaces an earlier one. */
  function CostMap(costs: seq<CostRow>): (m: map<string, CostRow>)
    ensures forall sku :: sku in m ==> m[sku].sku == sku && m[sku] in costs
    ensures forall i :: 0 <= i < |costs| ==> costs[i].sku in m
  {
    if costs == [] then map[]
    else
      var c := costs[|costs| - 1];
      CostMap(costs[..|costs| - 1])[c.sku := c]
  }

  /** `costMap.get(sku)`. */
  function CostFor(costs: seq<CostRow>, sku: string): (r: Option<CostRow>)
    ensures r.Some? ==> r.value.sku == sku && r.value in costs
    ensures r.None? ==> forall i :: 0 <= i < |costs| ==> costs[i].sku != sku
  {
    var m := CostMap(costs);
    if sku in m then Some(m[sku]) else None
  }

  /** The row a lookup finds is the last cost row with that SKU. */
  lemma {:induction false} CostForLast(costs: seq<CostRow>, i: nat)
    requires i < |costs|
    requires forall j :: i < j < |costs| ==> costs[j].sku != costs[i].sku
    ensures CostFor(costs, costs[i].sku) == Some(costs[i])
  {
    if i < |costs| - 1 {
      var init := costs[..|costs| - 1];
      assert init[i] == costs[i];
      forall j | i < j < |init| ensures init[j].sku != init[i].sku {
        assert init[j] == costs[j];
      }
      CostForLast(init, i);
    }
  }

  /** A SKU no cost row names is not matched. */
  lemma {:induction false} CostForMissing(costs: seq<CostRow>, sku: string)
    requires forall j :: 0 <= j < |costs| ==> costs[j].sku != sku
    ensures CostFor(costs, sku) == None
  {
    if costs != [] {
      var init := costs[..|costs| - 1];
      forall j | 0 <= j < |init| ensures init[j].sku != sku {
        assert init[j] == costs[j];
      }
      CostForMissing(init, sku);
    }
  }

  /** `costItem?.unitCostRMB || 0`. */
  function UnitCostOf(item: Option<CostRow>): (r: real)
    ensures item.None? ==> r == 0.0
    ensures item.Some? ==> r == item.value.unitCostRMB
  {
    if item.Some? then item.value.unitCostRMB else 0.0
  }

  /** `costItem?.shipMultiplier || 1`: a multiplier of 0 counts as 1. */
  function MultiplierOf(item: Option<CostRow>): (m: real)
    ensures m != 0.0
    ensures item.None? ==> m == 1.0
    ensures item.Some? && item.value.shipMultiplier == 0.0 ==> m == 1.0
    ensures item.Some? && item.value.shipMultiplier != 0.0 ==> m == item.value.shipMultiplier
  {
    if item.Some? && item.value.shipMultiplier != 0.0 then item.value.shipMultiplier else 1.0
  }

  // ---------------------------------------------------------------------
  // Commission waterfall

  /** The commission the waterfall settles on: fee, rate, where the rate came from, and whether the fee is the order's own. */
  datatype Commission = Commission(fee: real, rate: Quotient, source: CommissionSource, actual: bool)

  /** `config.skuCommissionRateMap[sku]` when it is truthy: present and not 0. */
  function LearnedRate(config: AppConfig, sku: string): (r: Option<real>)
    ensures r.Some? <==> sku in config.skuCommissionRateMap && config.skuCommissionRateMap[sku] != 0.0
    ensures r.Some? ==> r.value == config.skuCommissionRateMap[sku] && r.value != 0.0
  {
    var m := config.skuCommissionRateMap;
    if sku in m && m[sku] != 0.0 then Some(m[sku]) else None
  }

  /** `fee / price` for a positive fee, which is +Infinity over a zero price. */
  function FeeRate(fee: real, price: real): (r: Quotient)
    ensures price == 0.0 <==> r == PositiveInfinity
    ensures r.Finite? ==> r.value * price == fee
  {
    if price == 0.0 then PositiveInfinity else Finite(fee / price)
  }

  /**
   * The order's own commission fee when it is positive; otherwise the price
   * times the SKU's learned rate when there is a non-zero one; otherwise the
   * price times the global rate.
   */
  function CommissionOf(order: OrderRow, config: AppConfig): (c: Commission)
    ensures c.actual <==> c.source == FromOrder
    ensures c.source == FromOrder <==> order.rawCommissionFee > 0.0
    ensures c.source == FromSkuMap <==>
              order.rawCommissionFee <= 0.0 && LearnedRate(config, order.sku).Some?
    ensures c.source == FromOrder ==> c.fee == order.rawCommissionFee
    ensures c.source == FromOrder ==> c.rate == FeeRate(order.rawCommissionFee, order.productPrice)
    ensures c.source != FromOrder ==> c.rate.Finite? && c.fee == order.productPrice * c.rate.value
    ensures c.source == FromSkuMap ==> c.rate.value == LearnedRate(config, order.sku).value
    ensures c.source == GlobalDefault ==> c.rate.value == config.commissionRate
  {
    if order.rawCommissionFee > 0.0 then
      Commission(order.rawCommissionFee, FeeRate(order.rawCommissionFee, order.productPrice), FromOrder, true)
    else
      match LearnedRate(config, order.sku)
      case Some(rate) => Commission(order.productPrice * rate, Finite(rate), FromSkuMap, false)
      case None =>
        Commission(order.productPrice * config.commissionRate, Finite(config.commissionRate), GlobalDefault, false)
  }

  /** A learned rate of 0 is falsy, so the waterfall falls through to the global rate. */
  lemma ZeroLearnedRateFallsThrough(order: OrderRow, config: AppConfig)
    requires order.rawCommissionFee <= 0.0
    requires order.sku in config.skuCommissionRateMap && config.skuCommissionRateMap[order.sku] == 0.0
    ensures CommissionOf(order, config).source == GlobalDefault
    ensures CommissionOf(order, config).fee == order.productPrice * config.commissionRate
  {
  }

  /** `order.rawServiceFee > 0 ? order.rawServiceFee : price * serviceRate`. */
  function ServiceFeeOf(order: OrderRow, config: AppConfig): (r: real)
    ensures order.rawServiceFee > 0.0 ==> r == order.rawServiceFee
    ensures order.rawServiceFee <= 0.0 ==> r == order.productPrice * config.serviceRate
  {
    if order.rawServiceFee > 0.0 then order.rawServiceFee else order.productPrice * config.serviceRate
  }

  /** The XTRA programme fee: a share of the price, only when the programme is on. */
  function XtraFeeOf(order: OrderRow, config: AppConfig): (r: real)
    ensures !config.xtraEnabled ==> r == 0.0
    ensures config.xtraEnabled ==> r == order.productPrice * config.xtraRate
  {
    if config.xtraEnabled then order.productPrice * config.xtraRate else 0.0
  }

  // ---------------------------------------------------------------------
  // One order

  /**
   * One order with its fees and profit. A cancelled or failed order has
   * every money field and the rate at 0, but keeps its flags, its
   * commission source and its matched cost.
   */
  function CalculateOrder(order: OrderRow, item: Option<CostRow>, config: AppConfig): (r: CalculatedOrder)
    requires config.exchangeRate > 0.0
    ensures r.order == order
    ensures r.isMatchedCost <==> item.Some?
    ensures r.costRMB == UnitCostOf(item) * MultiplierOf(item)
    ensures r.commissionSource == CommissionOf(order, config).source
    ensures r.isCommissionActual <==> order.rawCommissionFee > 0.0
    ensures r.isServiceActual <==> order.rawServiceFee > 0.0
    ensures IsCancelled(order.status) ==>
              r.commissionFee == 0.0 && r.serviceFee == 0.0 && r.processingFee == 0.0
              && r.xtraFee == 0.0 && r.feesTotal == 0.0 && r.netIncomeIDR == 0.0
              && r.netProfitRMB == 0.0 && r.commissionRateUsed == Finite(0.0) && !r.isIncomeActual
    ensures !IsCancelled(order.status) ==>
              r.commissionFee == CommissionOf(order, config).fee
              && r.commissionRateUsed == CommissionOf(order, config).rate
              && r.serviceFee == ServiceFeeOf(order, config)
              && r.processingFee == config.processingFeeFixed
              && r.xtraFee == XtraFeeOf(order, config)
              && r.feesTotal == r.commissionFee + r.serviceFee + r.processingFee + r.xtraFee
    ensures !IsCancelled(order.status) ==>
              (r.isIncomeActual <==> order.estimatedIncome > 0.0)
              && r.netIncomeIDR == (if order.estimatedIncome > 0.0 then order.estimatedIncome
                                    else order.productPrice - r.feesTotal)
              && r.netProfitRMB == r.netIncomeIDR / config.exchangeRate - r.costRMB * order.quantity as real
  {
    var unitCost := UnitCostOf(item);
    var multiplier := MultiplierOf(item);
    var price := order.productPrice;
    var cancelled := IsCancelled(order.status);
    var commission := CommissionOf(order, config);
    var serviceFee := ServiceFeeOf(order, config);
    var processingFee := config.processingFeeFixed;
    var xtraFee := XtraFeeOf(order, config);
    var feesTotal := commission.fee + serviceFee + processingFee + xtraFee;
    var actualIncome := !cancelled && order.estimatedIncome > 0.0;
    var netIncome :=
      if cancelled then 0.0
      else if actualIncome then order.estimatedIncome
      else price - feesTotal;
    var netProfit :=
      if cancelled then 0.0
      else netIncome / config.exchangeRate - unitCost * multiplier * order.quantity as real;
    CalculatedOrder(
      order,
      unitCost * multiplier,
      if cancelled then 0.0 else commission.fee,
      commission.actual,
      if cancelled then 0.0 else serviceFee,
      order.rawServiceFee > 0.0,
      if cancelled then 0.0 else processingFee,
      if cancelled then 0.0 else xtraFee,
      if cancelled then 0.0 else feesTotal,
      netIncome,
      actualIncome,
      netProfit,
      item.Some?,
      if cancelled then Finite(0.0) else commission.rate,
      commission.source)
  }

  /**
   * Without a reported income the profit is the price less the four fees,
   * converted to yuan, less the goods cost of the whole quantity.
   */
  lemma ProfitFromFees(order: OrderRow, item: Option<CostRow>, config: AppConfig)
    requires config.exchangeRate > 0.0
    requires !IsCancelled(order.status) && order.estimatedIncome <= 0.0
    ensures var r := CalculateOrder(order, item, config);
      r.netProfitRMB
      == (order.productPrice - (CommissionOf(order, config).fee + ServiceFeeOf(order, config)
                                + config.processingFeeFixed + XtraFeeOf(order, config)))
         / config.exchangeRate
         - UnitCostOf(item) * MultiplierOf(item) * order.quantity as real
  {
  }

  /** A reported income makes the profit independent of every fee setting. */
  lemma ReportedIncomeIgnoresFees(order: OrderRow, item: Option<CostRow>, c1: AppConfig, c2: AppConfig)
    requires c1.exchangeRate > 0.0 && c1.exchangeRate == c2.exchangeRate
    requires !IsCancelled(order.status) && order.estimatedIncome > 0.0
    ensures CalculateOrder(order, item, c1).netIncomeIDR == order.estimatedIncome
    ensures CalculateOrder(order, item, c1).netProfitRMB == CalculateOrder(order, item, c2).netProfitRMB
  {
  }

  /** An order whose SKU has no cost row costs nothing: its profit is its income in yuan. */
  lemma UnmatchedOrderCostsNothing(order: OrderRow, config: AppConfig)
    requires config.exchangeRate > 0.0 && !IsCancelled(order.status)
    ensures var r := CalculateOrder(order, None, config);
      !r.isMatchedCost && r.costRMB == 0.0 && r.netProfitRMB == r.netIncomeIDR / config.exchangeRate
  {
  }

  // ---------------------------------------------------------------------
  // All orders

  /** `orders.map(...)`: one calculated order per order, in order, each priced against the cost map. */
  function CalculateAll(orders: seq<OrderRow>, costs: seq<CostRow>, config: AppConfig): (r: seq<CalculatedOrder>)
    requires config.exchangeRate > 0.0
    ensures |r| == |orders|
    ensures forall i :: 0 <= i < |orders| ==>
              r[i] == CalculateOrder(orders[i], CostFor(costs, orders[i].sku), config)
  {
    if orders == [] then []
    else
      var init := orders[..|orders| - 1];
      var last := orders[|orders| - 1];
      var r := CalculateAll(init, costs, config);
      assert forall i :: 0 <= i < |init| ==> init[i] == orders[i];
      r + [CalculateOrder(last, CostFor(costs, last.sku), config)]
  }
}
