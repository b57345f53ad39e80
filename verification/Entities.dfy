/** The domain entities: orders, positions, symbols and strategies, with decimals as reals. */
module Entities {

  datatype Option<+T> = None | Some(value: T) {
    function GetOr(default: T): T { if Some? then value else default }
  }

  /** A quotient of decimals. The library's division rounds; here it is exact. */
  function Quotient(a: real, b: real): real
    requires b != 0.0
  {
    a / b
  }

  datatype OrderSide = Buy | Sell

  datatype OrderType = Limit | Market

  datatype OrderStatus = Pending | Submitted | Partial | Filled | Canceled | Rejected

  datatype Order = Order(
    id: string,
    exchangeOrderId: string,
    symbol: string,
    side: OrderSide,
    kind: OrderType,
    status: OrderStatus,
    quantity: real,
    price: real,
    filledQty: real,
    remainingQty: real,
    avgFillPrice: real,
    filledAt: Option<int>)
  {
    predicate IsTerminal() { status in {Filled, Canceled, Rejected} }

    predicate IsActive() { status == Submitted || status == Partial }

    predicate IsPartiallyFilled() { status == Partial && filledQty > 0.0 }
  }

  datatype PositionSide = Long | Short | Flat

  datatype Position = Position(
    side: PositionSide,
    quantity: real,
    entryPrice: real,
    currentPrice: real,
    unrealizedPnL: real,
    realizedPnL: real)
  {
    predicate IsFlat() { quantity == 0.0 || side == Flat }

    /** What the position cost to open: positive when long, negative otherwise. */
    function OpenValue(): real {
      if side == Long then quantity * entryPrice else -(quantity * entryPrice)
    }

    function MarketValue(): real {
      if side == Long then quantity * currentPrice else -(quantity * currentPrice)
    }
  }

  datatype Symbol = Symbol(
    trading: bool,
    minOrderQty: real,
    maxOrderQty: real,
    minPrice: real,
    maxPrice: real,
    tickSize: real,
    stepSize: real,
    minNotional: real)

  datatype Strategy = Strategy(maxPositionSize: real, maxDailyLoss: real, dailyPnL: real) {
    predicate HasReachedDailyLossLimit() { maxDailyLoss != 0.0 && dailyPnL <= -maxDailyLoss }
  }
}
