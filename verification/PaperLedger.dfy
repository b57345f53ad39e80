/**
  The paper-trading simulator: orders that fill after a delay, a cash balance, and one
  position per symbol. Every lock section is one step; `pending` is the set of delayed
  fills whose goroutine has not run yet, so a run is any interleaving of submissions,
  cancellations, price updates and delayed fills.
*/
module PaperLedger {
  import opened Entities
  import opened Sums

  const SLIPPAGE := 5.0 / 10000.0
  const COMMISSION_RATE := 0.0006

  /** `crashed`: a delayed fill divided by zero and took the process down. */
  datatype Ledger = Ledger(
    orders: map<string, Order>,
    positions: map<string, Position>,
    balance: real,
    lastPrices: map<string, real>,
    pending: set<string>,
    crashed: bool)

  datatype CancelResult = Cancelled | NotFound | AlreadyTerminal(status: OrderStatus)

  /* ---------- Pricing ---------- */

  function ApplySlippage(side: OrderSide, market: real): real {
    if side == Buy then market * (1.0 + SLIPPAGE) else market * (1.0 - SLIPPAGE)
  }

  function FillPrice(s: Ledger, o: Order): real {
    ApplySlippage(o.side, if o.symbol in s.lastPrices then s.lastPrices[o.symbol] else o.price)
  }

  function Notional(quantity: real, price: real): real { quantity * price }

  function Commission(notional: real): real { notional * COMMISSION_RATE }

  /** The cash a fill moves: a buy pays the commission on top, a sale has it deducted. */
  function CashFlow(side: OrderSide, notional: real): real {
    if side == Buy then -(notional + Commission(notional)) else notional - Commission(notional)
  }

  function RealizedPnL(p: Position, exit: real, quantity: real): real {
    if p.side == Long then (exit - p.entryPrice) * quantity else (p.entryPrice - exit) * quantity
  }

  function UnrealizedPnL(p: Position, current: real): real {
    if p.side == Long then (current - p.entryPrice) * p.quantity else (p.entryPrice - current) * p.quantity
  }

  predicate Extends(p: Position, side: OrderSide) {
    (side == Buy && p.side == Long) || (side == Sell && p.side == Short)
  }

  /** The position after a fill; None where averaging the entry price divides by zero. */
  function Apply(p: Option<Position>, o: Order, price: real): Option<Position> {
    var commission := Commission(Notional(o.quantity, price));
    match p
    case None =>
      Some(Position(if o.side == Sell then Short else Long, o.quantity, price, price, 0.0, -commission))
    case Some(p) =>
      if Extends(p, o.side) then
        if p.quantity + o.quantity == 0.0 then None else
        Some(p.(entryPrice := Quotient(Notional(p.quantity, p.entryPrice) + Notional(o.quantity, price), p.quantity + o.quantity),
                quantity := p.quantity + o.quantity,
                realizedPnL := p.realizedPnL - commission,
                currentPrice := price))
      else
        var q := p.(realizedPnL := p.realizedPnL + RealizedPnL(p, price, o.quantity) - commission,
                    currentPrice := price);
        if o.quantity >= p.quantity then Some(q.(quantity := 0.0, unrealizedPnL := 0.0))
        else Some(q.(quantity := p.quantity - o.quantity))
  }

  /* ---------- Steps ---------- */

  datatype Event =
    | Submit(id: string, order: Order)
    | Cancel(id: string)
    | Price(symbol: string, price: real)
    | FillDue(id: string, at: int)
    | FillDropped(id: string)

  predicate Enabled(s: Ledger, e: Event) {
    !s.crashed
    && match e
       case Submit(id, _) => id !in s.orders && id !in s.pending
       case FillDue(id, _) => id in s.pending
       case FillDropped(id) => id in s.pending
       case _ => true
  }

  function Submitted(id: string, o: Order): Order { o.(exchangeOrderId := id, status := OrderStatus.Submitted) }

  function Filled(o: Order, price: real, at: int): Order {
    o.(status := OrderStatus.Filled, filledQty := o.quantity, remainingQty := 0.0, avgFillPrice := price, filledAt := Some(at))
  }

  function PositionOf(s: Ledger, symbol: string): Option<Position> {
    if symbol in s.positions then Some(s.positions[symbol]) else None
  }

  predicate Fillable(s: Ledger, id: string) {
    id in s.orders && s.orders[id].status == OrderStatus.Submitted
  }

  predicate Affordable(s: Ledger, o: Order) {
    var notional := Notional(o.quantity, FillPrice(s, o));
    o.side == Sell || s.balance >= notional + Commission(notional)
  }

  function Settle(s: Ledger, id: string, at: int): Ledger
    requires Fillable(s, id)
  {
    var o := s.orders[id];
    if !Affordable(s, o) then s.(orders := s.orders[id := o.(status := Rejected)]) else
    var paid := s.(orders := s.orders[id := Filled(o, FillPrice(s, o), at)],
                   balance := s.balance + CashFlow(o.side, Notional(o.quantity, FillPrice(s, o))));
    match Apply(PositionOf(s, o.symbol), o, FillPrice(s, o))
    case Some(p) => paid.(positions := s.positions[o.symbol := p])
    case None => paid.(crashed := true)
  }

  function Mark(s: Ledger, symbol: string, price: real): Ledger {
    var t := s.(lastPrices := s.lastPrices[symbol := price]);
    if symbol in s.positions && !s.positions[symbol].IsFlat() then
      var p := s.positions[symbol];
      t.(positions := s.positions[symbol := p.(currentPrice := price, unrealizedPnL := UnrealizedPnL(p, price))])
    else t
  }

  function Step(s: Ledger, e: Event): Ledger {
    if !Enabled(s, e) then s else
    match e
    case Submit(id, o) => s.(orders := s.orders[id := Submitted(id, o)], pending := s.pending + {id})
    case Cancel(id) =>
      if id in s.orders && !s.orders[id].IsTerminal()
      then s.(orders := s.orders[id := s.orders[id].(status := Canceled)]) else s
    case Price(symbol, price) => Mark(s, symbol, price)
    case FillDue(id, at) =>
      var t := s.(pending := s.pending - {id});
      if Fillable(t, id) then Settle(t, id, at) else t
    case FillDropped(id) => s.(pending := s.pending - {id})
  }

  function Run(s: Ledger, es: seq<Event>): Ledger
    decreases |es|
  {
    if es == [] then s else Run(Step(s, es[0]), es[1..])
  }

  /** A new or reset simulator; delayed fills of an earlier life may still be around. */
  function Opened(balance: real, pending: set<string>): Ledger {
    Ledger(map[], map[], balance, map[], pending, false)
  }

  /* ---------- Conservation of value ---------- */

  function OpenValue(p: Position): real { p.OpenValue() }

  function Realized(p: Position): real { p.realizedPnL }

  function Unrealized(p: Position): real { p.unrealizedPnL }

  function MarketValue(p: Position): real { p.MarketValue() }

  /** What a position contributes to the books: its cost, less the profit already realized. */
  function Worth(p: Position): real { OpenValue(p) - Realized(p) }

  ghost function Net(s: Ledger): real { s.balance + Sum(s.positions, Worth) }

  function Sign(p: Position): real { if p.side == Long then 1.0 else -1.0 }

  /** The fill that `e` performs, if it performs one. */
  predicate Fills(s: Ledger, e: Event) {
    Enabled(s, e) && e.FillDue? && Fillable(s, e.id) && Affordable(s, s.orders[e.id])
  }

  /** Is `o` an opposite-side order for more than is open? */
  predicate Exceeds(p: Option<Position>, o: Order) {
    p.Some? && !Extends(p.value, o.side) && o.quantity > p.value.quantity
  }

  /** The quantity left over by an over-closing fill, at the entry price. */
  function Excess(p: Option<Position>, o: Order): real {
    if Exceeds(p, o) then Sign(p.value) * (o.quantity - p.value.quantity) * p.value.entryPrice else 0.0
  }

  predicate OverCloses(s: Ledger, e: Event) {
    Fills(s, e) && Exceeds(PositionOf(s, s.orders[e.id].symbol), s.orders[e.id])
  }

  /** What an over-closing fill adds to `Net`: the surplus at the entry price. */
  function Surplus(s: Ledger, e: Event): real {
    if Fills(s, e) then Excess(PositionOf(s, s.orders[e.id].symbol), s.orders[e.id]) else 0.0
  }

  function TotalSurplus(s: Ledger, es: seq<Event>): real
    decreases |es|
  {
    if es == [] then 0.0 else Surplus(s, es[0]) + TotalSurplus(Step(s, es[0]), es[1..])
  }

  /** The simulator never sets a position's side to flat. */
  ghost predicate Sided(s: Ledger) { forall k :: k in s.positions ==> s.positions[k].side != Flat }

  function WorthOf(p: Option<Position>): real { if p.Some? then Worth(p.value) else 0.0 }

  lemma ExtendConserves(p: Position, o: Order, price: real)
    requires Extends(p, o.side) && Apply(Some(p), o, price).Some?
    ensures CashFlow(o.side, Notional(o.quantity, price)) + Worth(Apply(Some(p), o, price).value) == Worth(p)
  {
    var total := p.quantity + o.quantity;
    var cost := Notional(p.quantity, p.entryPrice) + Notional(o.quantity, price);
    assert total * Quotient(cost, total) == cost;
  }

  lemma ReduceConserves(p: Position, o: Order, price: real)
    requires !Extends(p, o.side) && p.side != Flat
    ensures CashFlow(o.side, Notional(o.quantity, price)) + Worth(Apply(Some(p), o, price).value)
            == Worth(p) + Excess(Some(p), o)
  {
    assert (p.quantity - o.quantity) * p.entryPrice == p.quantity * p.entryPrice - o.quantity * p.entryPrice;
    assert (price - p.entryPrice) * o.quantity == o.quantity * price - o.quantity * p.entryPrice;
    assert (o.quantity - p.quantity) * p.entryPrice == o.quantity * p.entryPrice - p.quantity * p.entryPrice;
  }

  /** One fill: cash, position value and realized profit balance, up to the excess. */
  lemma ApplyConserves(p: Option<Position>, o: Order, price: real)
    requires Apply(p, o, price).Some? && (p.Some? ==> p.value.side != Flat)
    ensures var q := Apply(p, o, price);
            && q.value.side != Flat
            && CashFlow(o.side, Notional(o.quantity, price)) + WorthOf(q) == WorthOf(p) + Excess(p, o)
  {
    if p.Some? {
      if Extends(p.value, o.side) { ExtendConserves(p.value, o, price); }
      else { ReduceConserves(p.value, o, price); }
    }
  }

  /** The books move by one position's change and the cash that paid for it. */
  lemma NetMoves(s: Ledger, t: Ledger, k: string, q: Position, cash: real, excess: real)
    requires t.positions == s.positions[k := q] && t.balance == s.balance + cash
    requires cash + Worth(q) == WorthOf(PositionOf(s, k)) + excess
    ensures Net(t) == Net(s) + excess
  {
    SumUpdate(s.positions, Worth, k, q);
  }

  lemma FillConserves(s: Ledger, id: string, at: int)
    requires Sided(s) && Fillable(s, id) && Affordable(s, s.orders[id]) && !Settle(s, id, at).crashed
    ensures Sided(Settle(s, id, at))
    ensures Net(Settle(s, id, at)) == Net(s) + Excess(PositionOf(s, s.orders[id].symbol), s.orders[id])
  {
    var o := s.orders[id];
    var p, price := PositionOf(s, o.symbol), FillPrice(s, o);
    ApplyConserves(p, o, price);
    NetMoves(s, Settle(s, id, at), o.symbol, Apply(p, o, price).value,
             CashFlow(o.side, Notional(o.quantity, price)), Excess(p, o));
  }

  lemma StepConserves(s: Ledger, e: Event)
    requires Sided(s) && !Step(s, e).crashed
    ensures Sided(Step(s, e))
    ensures Net(Step(s, e)) == Net(s) + Surplus(s, e)
  {
    if Fills(s, e) {
      FillConserves(s.(pending := s.pending - {e.id}), e.id, e.at);
    } else if Enabled(s, e) && e.Price? {
      var t := Step(s, e);
      if t.positions != s.positions { NetMoves(s, t, e.symbol, t.positions[e.symbol], 0.0, 0.0); }
    }
  }

  lemma ProductZero(sign: real, surplus: real, price: real)
    requires sign == 1.0 || sign == -1.0
    requires surplus > 0.0
    ensures sign * surplus * price == 0.0 <==> price == 0.0
  {
    assert price > 0.0 ==> surplus * price > 0.0;
    assert price < 0.0 ==> surplus * price < 0.0;
    assert sign * surplus * price == sign * (surplus * price);
  }

  /** A step keeps the books exactly when it is not an over-closing fill at an entry price other than zero. */
  lemma BooksKeptExactlyWhen(s: Ledger, e: Event)
    requires Sided(s) && !Step(s, e).crashed
    ensures Net(Step(s, e)) == Net(s) <==>
            !OverCloses(s, e) || s.positions[s.orders[e.id].symbol].entryPrice == 0.0
  {
    StepConserves(s, e);
    if OverCloses(s, e) {
      var o := s.orders[e.id];
      var p := s.positions[o.symbol];
      ProductZero(Sign(p), o.quantity - p.quantity, p.entryPrice);
    }
  }

  lemma CrashedForGood(s: Ledger, es: seq<Event>)
    requires s.crashed
    ensures Run(s, es) == s
    decreases |es|
  {}

  lemma {:induction false} RunConserves(s: Ledger, es: seq<Event>)
    requires Sided(s) && !Run(s, es).crashed
    ensures Sided(Run(s, es))
    ensures Net(Run(s, es)) == Net(s) + TotalSurplus(s, es)
    decreases |es|
  {
    if es != [] {
      if Step(s, es[0]).crashed { CrashedForGood(Step(s, es[0]), es[1..]); }
      StepConserves(s, es[0]);
      RunConserves(Step(s, es[0]), es[1..]);
    }
  }

  /** The ledger identity of every run, with the exact term by which over-closing breaks it. */
  lemma Conservation(initial: real, pending: set<string>, es: seq<Event>)
    requires !Run(Opened(initial, pending), es).crashed
    ensures var s := Run(Opened(initial, pending), es);
            s.balance + Sum(s.positions, OpenValue)
            == initial + Sum(s.positions, Realized) + TotalSurplus(Opened(initial, pending), es)
  {
    RunConserves(Opened(initial, pending), es);
    SumAdd(Run(Opened(initial, pending), es).positions, Worth, Realized, OpenValue);
  }

  ghost predicate NeverOverCloses(s: Ledger, es: seq<Event>)
    decreases |es|
  {
    es == [] || (!OverCloses(s, es[0]) && NeverOverCloses(Step(s, es[0]), es[1..]))
  }

  lemma {:induction false} NoSurplus(s: Ledger, es: seq<Event>)
    requires NeverOverCloses(s, es)
    ensures TotalSurplus(s, es) == 0.0
    decreases |es|
  {
    if es != [] { NoSurplus(Step(s, es[0]), es[1..]); }
  }

  /** While no fill exceeds the open quantity on the other side, nothing is gained or lost. */
  lemma ConservationWithoutOverClosing(initial: real, pending: set<string>, es: seq<Event>)
    requires NeverOverCloses(Opened(initial, pending), es) && !Run(Opened(initial, pending), es).crashed
    ensures var s := Run(Opened(initial, pending), es);
            s.balance + Sum(s.positions, OpenValue) == initial + Sum(s.positions, Realized)
  {
    Conservation(initial, pending, es);
    NoSurplus(Opened(initial, pending), es);
  }

  /** Between the last fill and the next price update the unrealized figure may be stale. */
  ghost predicate Marked(s: Ledger) {
    forall k :: k in s.positions ==>
      s.positions[k].unrealizedPnL == UnrealizedPnL(s.positions[k], s.positions[k].currentPrice)
  }

  /** Equity at market equals the initial balance plus total profit, once every position is marked. */
  lemma MarkedEquity(initial: real, pending: set<string>, es: seq<Event>)
    requires NeverOverCloses(Opened(initial, pending), es) && !Run(Opened(initial, pending), es).crashed
    requires Marked(Run(Opened(initial, pending), es))
    ensures var s := Run(Opened(initial, pending), es);
            s.balance + Sum(s.positions, MarketValue)
            == initial + Sum(s.positions, Realized) + Sum(s.positions, Unrealized)
  {
    var s := Run(Opened(initial, pending), es);
    ConservationWithoutOverClosing(initial, pending, es);
    SumAdd(s.positions, OpenValue, Unrealized, MarketValue);
  }

  /** The concrete run: buy 1 at 100, then sell 3. Two units of entry price appear from nowhere. */
  lemma OverClosingCreatesMoney(buy: Order, sell: Order)
    requires buy.symbol == sell.symbol && buy.side == Buy && sell.side == Sell
    requires buy.quantity == 1.0 && sell.quantity == 3.0 && buy.price == sell.price == 100.0
    ensures var s := Run(Opened(1000.0, {}), [Submit("a", buy), FillDue("a", 1), Submit("b", sell), FillDue("b", 2)]);
            && !s.crashed
            && s.balance + Sum(s.positions, OpenValue) - Sum(s.positions, Realized) == 1000.0 + 2.0 * 100.05
  {
    var s0 := Opened(1000.0, {});
    var s1 := Step(s0, Submit("a", buy));
    var s2 := Step(s1, FillDue("a", 1));
    var s3 := Step(s2, Submit("b", sell));
    var s4 := Step(s3, FillDue("b", 2));
    var es := [Submit("a", buy), FillDue("a", 1), Submit("b", sell), FillDue("b", 2)];
    assert es[1..][1..][1..] == [FillDue("b", 2)];
    assert es[1..][1..] == [Submit("b", sell), FillDue("b", 2)];
    assert Run(s0, es) == Run(s1, es[1..]) == Run(s2, es[1..][1..]) == Run(s3, es[1..][1..][1..]) == Run(s4, []);
    StepConserves(s0, es[0]);
    StepConserves(s1, FillDue("a", 1));
    StepConserves(s2, Submit("b", sell));
    StepConserves(s3, FillDue("b", 2));
  }
}
