/** The records the profit engine works on (types.ts). */
module Types {
  import opened Cells

  datatype OrderStatus = Completed | Paid | Delivered | Cancelled | Failed | InProgress | Unknown

  const AllStatuses: set<OrderStatus> :=
    {Completed, Paid, Delivered, Cancelled, Failed, InProgress, Unknown}

  /** One row of the order ledger. Amounts are in rupiah (IDR). */
  datatype OrderRow = OrderRow(
    // The id keeps the cell it was read from: a sheet may hold ids as numbers.
    orderId: Cell,
    sku: string,
    productPrice: real,
    quantity: int,
    status: OrderStatus,
    shippingSubsidy: real,
    logisticFee: real,
    rawStatus: string,
    rawCommissionFee: real,
    rawServiceFee: real,
    estimatedIncome: real)

  /** One row of the cost ledger: unit cost in yuan (RMB) and a shipping multiplier. */
  datatype CostRow = CostRow(sku: string, unitCostRMB: real, shipMultiplier: real)

  datatype CommissionSource = FromOrder | FromSkuMap | GlobalDefault

  /** A quotient that may be the +Infinity JavaScript gives for a positive fee over a zero price. */
  datatype Quotient = Finite(value: real) | PositiveInfinity

  /** An order with its fees, income and profit worked out. */
  datatype CalculatedOrder = CalculatedOrder(
    order: OrderRow,
    costRMB: real,
    commissionFee: real,
    isCommissionActual: bool,
    serviceFee: real,
    isServiceActual: bool,
    processingFee: real,
    xtraFee: real,
    feesTotal: real,
    netIncomeIDR: real,
    isIncomeActual: bool,
    netProfitRMB: real,
    isMatchedCost: bool,
    commissionRateUsed: Quotient,
    commissionSource: CommissionSource)

  datatype AppConfig = AppConfig(
    exchangeRate: real,          // rupiah per yuan
    commissionRate: real,
    serviceRate: real,
    processingFeeFixed: real,
    xtraEnabled: bool,
    xtraRate: real,
    skuCommissionRateMap: map<string, real>)

  predicate IsCancelled(s: OrderStatus) { s == Cancelled || s == Failed }

  predicate IsSuccessful(s: OrderStatus) { s == Completed || s == Delivered || s == Paid }
}
