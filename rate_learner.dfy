/**
 * Commission-rate learning (`learnCommissionRates` in App.tsx): every order
 * that reports its own commission teaches the rate its SKU is charged,
 * snapped to one of the two standard rates when it is close to one.
 */
module RateLearner {
  import opened Types
  import opened Seqs

  const StandardRate: real := 0.095
  const ReducedRate: real := 0.0825
  const SnapWindow: real := 0.005

  /** `Math.abs(x - target) < 0.005`. */
  predicate Near(x: real, target: real)
  {
    -SnapWindow < x - target < SnapWindow
  }

  /** A rate within 0.005 of 9.5% becomes 9.5%, else one within 0.005 of 8.25% becomes 8.25%, else it is kept. */
  function Snap(rate: real): (r: real)
    ensures Near(rate, StandardRate) ==> r == StandardRate
    ensures !Near(rate, StandardRate) && Near(rate, ReducedRate) ==> r == ReducedRate
    ensures !Near(rate, StandardRate) && !Near(rate, ReducedRate) ==> r == rate
  {
    if Near(rate, StandardRate) then StandardRate
    else if Near(rate, ReducedRate) then ReducedRate
    else rate
  }

  /** Snapping moves a rate by less than the window, and snapping twice changes nothing. */
  lemma SnapProperties(rate: real)
    ensures Near(Snap(rate), rate)
    ensures Snap(Snap(rate)) == Snap(rate)
  {
  }

  /** An order teaches a rate when it has a SKU, a positive commission and a positive price. */
  predicate Qualifies(o: OrderRow)
    ensures Qualifies(o) ==> o.productPrice > 0.0 && o.rawCommissionFee / o.productPrice > 0.0
  {
    o.sku != "" && o.rawCommissionFee > 0.0 && o.productPrice > 0.0
  }

  /** The rate an order teaches: its commission over its price, snapped. */
  function TaughtRate(o: OrderRow): (r: real)
    requires Qualifies(o)
    ensures r > 0.0
    ensures Near(r, o.rawCommissionFee / o.productPrice)
  {
    Snap(o.rawCommissionFee / o.productPrice)
  }

  /** The rate map being built and the number of times an entry was set to a new value. */
  datatype Learning = Learning(rates: map<string, real>, count: nat)

  /** One pass of the loop body: a qualifying order sets its SKU's rate, and counts when the value changes. */
  function Step(l: Learning, o: OrderRow): (r: Learning)
    ensures r.count == l.count || r.count == l.count + 1
    ensures r.count == l.count ==> r.rates == l.rates
    ensures r.count == l.count + 1 <==>
              Qualifies(o) && (o.sku !in l.rates || l.rates[o.sku] != TaughtRate(o))
    ensures Qualifies(o) ==> r.rates == l.rates[o.sku := TaughtRate(o)]
    ensures !Qualifies(o) ==> r == l
  {
    if Qualifies(o) then
      var rate := TaughtRate(o);
      if o.sku in l.rates && l.rates[o.sku] == rate then l
      else Learning(l.rates[o.sku := rate], l.count + 1)
    else l
  }

  /** The loop over `orders`, starting from a copy of `start`. */
  function Learn(orders: seq<OrderRow>, start: map<string, real>): (r: Learning)
    ensures r.count <= |orders|
    ensures forall k :: k in start ==> k in r.rates
  {
    if orders == [] then Learning(start, 0)
    else Step(Learn(orders[..|orders| - 1], start), orders[|orders| - 1])
  }

  method LearnRates(orders: seq<OrderRow>, start: map<string, real>) returns (rates: map<string, real>, count: nat)
    ensures Learning(rates, count) == Learn(orders, start)
  {
    rates := start;
    count := 0;
    var i := 0;
    while i < |orders|
      invariant 0 <= i <= |orders|
      invariant Learning(rates, count) == Learn(orders[..i], start)
    {
      PrefixExtend(orders, i);
      var o := orders[i];
      if o.sku != "" && o.rawCommissionFee > 0.0 && o.productPrice > 0.0 {
        var calculatedRate := o.rawCommissionFee / o.productPrice;
        var snappedRate := calculatedRate;
        if Near(calculatedRate, StandardRate) {
          snappedRate := StandardRate;
        } else if Near(calculatedRate, ReducedRate) {
          snappedRate := ReducedRate;
        }
        if !(o.sku in rates && rates[o.sku] == snappedRate) {
          rates := rates[o.sku := snappedRate];
          count := count + 1;
        }
      }
      i := i + 1;
    }
    PrefixWhole(orders);
  }

  /** The number of qualifying orders. */
  function QualifyingCount(orders: seq<OrderRow>): nat
  {
    if orders == [] then 0
    else QualifyingCount(orders[..|orders| - 1]) + (if Qualifies(orders[|orders| - 1]) then 1 else 0)
  }

  /** Each qualifying order is counted at most once; a SKU seen at two rates counts twice. */
  lemma {:induction false} LearnCountBound(orders: seq<OrderRow>, start: map<string, real>)
    ensures Learn(orders, start).count <= QualifyingCount(orders)
  {
    if orders != [] {
      LearnCountBound(orders[..|orders| - 1], start);
    }
  }

  /** A count of 0 means nothing changed: the map is the one learning started from. */
  lemma {:induction false} LearnNothingNew(orders: seq<OrderRow>, start: map<string, real>)
    requires Learn(orders, start).count == 0
    ensures Learn(orders, start).rates == start
  {
    if orders != [] {
      LearnNothingNew(orders[..|orders| - 1], start);
    }
  }

  /** The learned SKUs are the ones already known and the ones some qualifying order names. */
  lemma {:induction false} LearnKeys(orders: seq<OrderRow>, start: map<string, real>, sku: string)
    ensures sku in Learn(orders, start).rates <==>
              sku in start || exists i :: 0 <= i < |orders| && Qualifies(orders[i]) && orders[i].sku == sku
  {
    if orders != [] {
      var init := orders[..|orders| - 1];
      LearnKeys(init, start, sku);
      if exists i :: 0 <= i < |init| && Qualifies(init[i]) && init[i].sku == sku {
        var i :| 0 <= i < |init| && Qualifies(init[i]) && init[i].sku == sku;
        assert orders[i] == init[i];
      }
      if exists i :: 0 <= i < |orders| && Qualifies(orders[i]) && orders[i].sku == sku {
        var i :| 0 <= i < |orders| && Qualifies(orders[i]) && orders[i].sku == sku;
        if i < |init| {
          assert init[i] == orders[i];
        }
      }
    }
  }

  /** The last qualifying order for a SKU decides its rate. */
  lemma {:induction false} LearnLastWins(orders: seq<OrderRow>, start: map<string, real>, i: nat)
    requires i < |orders| && Qualifies(orders[i])
    requires forall j :: i < j < |orders| && Qualifies(orders[j]) ==> orders[j].sku != orders[i].sku
    ensures orders[i].sku in Learn(orders, start).rates
    ensures Learn(orders, start).rates[orders[i].sku] == TaughtRate(orders[i])
  {
    if i < |orders| - 1 {
      var init := orders[..|orders| - 1];
      assert init[i] == orders[i];
      forall j | i < j < |init| && Qualifies(init[j]) ensures init[j].sku != init[i].sku {
        assert init[j] == orders[j];
      }
      LearnLastWins(init, start, i);
    }
  }

  /** A SKU no qualifying order names keeps the rate it started with, if any. */
  lemma {:induction false} LearnUntouched(orders: seq<OrderRow>, start: map<string, real>, sku: string)
    requires forall j :: 0 <= j < |orders| && Qualifies(orders[j]) ==> orders[j].sku != sku
    ensures sku in Learn(orders, start).rates <==> sku in start
    ensures sku in start ==> Learn(orders, start).rates[sku] == start[sku]
  {
    if orders != [] {
      var init := orders[..|orders| - 1];
      forall j | 0 <= j < |init| && Qualifies(init[j]) ensures init[j].sku != sku {
        assert init[j] == orders[j];
      }
      LearnUntouched(init, start, sku);
    }
  }
}
