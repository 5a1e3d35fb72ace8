/**
 * The dashboard totals (the `stats` memo of App.tsx): orders counted by
 * status, sales, fees, income and goods cost summed over the orders that
 * went through, and the profit and margin that follow once ad spend is
 * taken off.
 */
module Stats {
  import opened Types
  import opened Seqs

  /** Every status counted at 0. */
  const NoCounts: map<OrderStatus, nat> :=
    map[Completed := 0, Paid := 0, Delivered := 0, Cancelled := 0, Failed := 0, InProgress := 0, Unknown := 0]

  /** The running state of the `forEach`: the status counts and the four running totals. */
  datatype Tally = Tally(counts: map<OrderStatus, nat>, sales: real, fees: real, income: real, cost: real)

  /** Every status has a count. */
  predicate Complete(t: Tally)
  {
    forall s: OrderStatus :: s in t.counts
  }

  const EmptyTally: Tally := Tally(NoCounts, 0.0, 0.0, 0.0, 0.0)

  lemma EmptyTallyComplete()
    ensures Complete(EmptyTally)
  {
    forall s: OrderStatus ensures s in NoCounts {
      match s
      case Completed =>
      case Paid =>
      case Delivered =>
      case Cancelled =>
      case Failed =>
      case InProgress =>
      case Unknown =>
    }
  }

  /** What a successful order adds to the goods cost: its cost times its quantity, only when matched. */
  function GoodsCost(o: CalculatedOrder): (r: real)
    ensures !o.isMatchedCost ==> r == 0.0
    ensures o.isMatchedCost ==> r == o.costRMB * o.order.quantity as real
  {
    if o.isMatchedCost then o.costRMB * o.order.quantity as real else 0.0
  }

  /** The loop body: count the order's status; add its money only when it went through. */
  function Add(t: Tally, o: CalculatedOrder): (r: Tally)
    requires Complete(t)
    ensures Complete(r)
  {
    var s := o.order.status;
    var counts := t.counts[s := t.counts[s] + 1];
    if IsSuccessful(s) then
      Tally(counts, t.sales + o.order.productPrice, t.fees + o.feesTotal, t.income + o.netIncomeIDR,
            t.cost + GoodsCost(o))
    else
      Tally(counts, t.sales, t.fees, t.income, t.cost)
  }

  /** The state after the loop has seen `data`. */
  function TallyOf(data: seq<CalculatedOrder>): (t: Tally)
    ensures Complete(t)
  {
    if data == [] then EmptyTallyComplete(); EmptyTally
    else Add(TallyOf(data[..|data| - 1]), data[|data| - 1])
  }

  /** The number of orders with status `s`. */
  function CountOf(data: seq<CalculatedOrder>, s: OrderStatus): nat
  {
    if data == [] then 0
    else CountOf(data[..|data| - 1], s) + (if data[|data| - 1].order.status == s then 1 else 0)
  }

  function CountTotal(counts: map<OrderStatus, nat>): nat
    requires forall s: OrderStatus :: s in counts
  {
    counts[Completed] + counts[Paid] + counts[Delivered] + counts[Cancelled] + counts[Failed]
    + counts[InProgress] + counts[Unknown]
  }

  /** Each status count is the number of orders with that status. */
  lemma {:induction false} TallyCounts(data: seq<CalculatedOrder>, s: OrderStatus)
    ensures TallyOf(data).counts[s] == CountOf(data, s)
  {
    if data != [] {
      TallyCounts(data[..|data| - 1], s);
    }
  }

  /** Every order is counted exactly once: the counts add up to the number of orders. */
  lemma {:induction false} CountsAddUp(data: seq<CalculatedOrder>)
    ensures CountTotal(TallyOf(data).counts) == |data|
  {
    if data != [] {
      CountsAddUp(data[..|data| - 1]);
    }
  }

  /** An order that did not go through is counted, and changes no total. */
  lemma UnsuccessfulAddsNoMoney(t: Tally, o: CalculatedOrder)
    requires Complete(t) && !IsSuccessful(o.order.status)
    ensures var r := Add(t, o);
      r.sales == t.sales && r.fees == t.fees && r.income == t.income && r.cost == t.cost
  {
  }

  /** The orders that went through. */
  function Successful(data: seq<CalculatedOrder>): (r: seq<CalculatedOrder>)
    ensures forall o :: o in r ==> IsSuccessful(o.order.status)
  {
    if data == [] then []
    else
      var last := data[|data| - 1];
      Successful(data[..|data| - 1]) + (if IsSuccessful(last.order.status) then [last] else [])
  }

  /** The totals are those of the orders that went through alone. */
  lemma {:induction false} TotalsOverSuccessful(data: seq<CalculatedOrder>)
    ensures var t := TallyOf(data);
      var u := TallyOf(Successful(data));
      t.sales == u.sales && t.fees == u.fees && t.income == u.income && t.cost == u.cost
  {
    if data != [] {
      var init := data[..|data| - 1];
      var last := data[|data| - 1];
      TotalsOverSuccessful(init);
      var u := Successful(init);
      if IsSuccessful(last.order.status) {
        assert Successful(data) == u + [last];
        InitOfAppend(u, [last]);
        assert TallyOf(u + [last]) == Add(TallyOf(u), last);
      } else {
        assert Successful(data) == u + [];
        assert u + [] == u;
      }
    }
  }

  /** The figures the dashboard shows. */
  datatype Stats = Stats(
    counts: map<OrderStatus, nat>,
    totalSalesIDR: real,
    totalFeesIDR: real,
    totalIncomeIDR: real,
    totalIncomeRMB: real,
    totalCostRMB: real,
    totalAdsRMB: real,
    finalNetProfitRMB: real,
    margin: real,
    hasCosts: bool)

  /**
   * The totals converted to yuan: profit is income less goods cost less ad
   * spend; the margin is profit over sales in percent, and 0 without sales.
   */
  function StatsOf(t: Tally, exchangeRate: real, totalAdsSpend: real, costCount: nat): (s: Stats)
    requires exchangeRate > 0.0
    ensures s.counts == t.counts && s.totalSalesIDR == t.sales && s.totalFeesIDR == t.fees
    ensures s.totalIncomeIDR == t.income && s.totalCostRMB == t.cost
    ensures s.finalNetProfitRMB == t.income / exchangeRate - t.cost - totalAdsSpend / exchangeRate
    ensures t.sales <= 0.0 ==> s.margin == 0.0
    ensures t.sales > 0.0 ==> s.margin == (s.finalNetProfitRMB / (t.sales / exchangeRate)) * 100.0
    ensures s.totalIncomeRMB == t.income / exchangeRate
    ensures s.totalAdsRMB == totalAdsSpend / exchangeRate
    ensures s.hasCosts <==> costCount > 0
  {
    var totalIncomeRMB := t.income / exchangeRate;
    var totalAdsRMB := totalAdsSpend / exchangeRate;
    var finalNetProfitRMB := totalIncomeRMB - t.cost - totalAdsRMB;
    var margin := if t.sales > 0.0 then (finalNetProfitRMB / (t.sales / exchangeRate)) * 100.0 else 0.0;
    Stats(t.counts, t.sales, t.fees, t.income, totalIncomeRMB, t.cost, totalAdsRMB, finalNetProfitRMB,
          margin, costCount > 0)
  }

  method ComputeStats(data: seq<CalculatedOrder>, exchangeRate: real, totalAdsSpend: real, costCount: nat)
    returns (s: Stats)
    requires exchangeRate > 0.0
    ensures s == StatsOf(TallyOf(data), exchangeRate, totalAdsSpend, costCount)
  {
    var counts := NoCounts;
    var totalSalesIDR, totalFeesIDR, totalIncomeIDR, totalCostRMB := 0.0, 0.0, 0.0, 0.0;
    var i := 0;
    while i < |data|
      invariant 0 <= i <= |data|
      invariant Tally(counts, totalSalesIDR, totalFeesIDR, totalIncomeIDR, totalCostRMB) == TallyOf(data[..i])
    {
      PrefixExtend(data, i);
      var o := data[i];
      counts := counts[o.order.status := counts[o.order.status] + 1];
      if o.order.status == Completed || o.order.status == Delivered || o.order.status == Paid {
        totalSalesIDR := totalSalesIDR + o.order.productPrice;
        totalFeesIDR := totalFeesIDR + o.feesTotal;
        totalIncomeIDR := totalIncomeIDR + o.netIncomeIDR;
        if o.isMatchedCost {
          totalCostRMB := totalCostRMB + o.costRMB * o.order.quantity as real;
        }
      }
      i := i + 1;
    }
    PrefixWhole(data);
    var t := Tally(counts, totalSalesIDR, totalFeesIDR, totalIncomeIDR, totalCostRMB);
    s := StatsOf(t, exchangeRate, totalAdsSpend, costCount);
  }
}
