/** The paper simulator as a mutable object, each lock section proved against its step. */
module PaperSimulator {
  import opened Entities
  import opened PaperLedger

  class Simulator {
    var orders: map<string, Order>
    var positions: map<string, Position>
    var balance: real
    var lastPrices: map<string, real>

    /** Delayed fills that have not run yet. */
    ghost var pending: set<string>

    /** Set where the program would panic. */
    var crashed: bool

    ghost function Value(): Ledger
      reads this
    {
      Ledger(orders, positions, balance, lastPrices, pending, crashed)
    }

    constructor (initialBalance: real)
      ensures Value() == Opened(initialBalance, {})
    {
      orders, positions, balance, lastPrices := map[], map[], initialBalance, map[];
      pending, crashed := {}, false;
    }

    /** The generated exchange id is fresh. */
    method SubmitOrder(order: Order, id: string)
      requires !crashed && id !in orders && id !in pending
      modifies this
      ensures Value() == Step(old(Value()), Submit(id, order))
    {
      var simOrder := order.(exchangeOrderId := id, status := OrderStatus.Submitted);
      orders := orders[id := simOrder];
      pending := pending + {id};
    }

    method CancelOrder(id: string) returns (r: CancelResult)
      requires !crashed
      modifies this
      ensures Value() == Step(old(Value()), Cancel(id))
      ensures r == if id !in old(orders) then NotFound
                   else if old(orders)[id].IsTerminal() then AlreadyTerminal(old(orders)[id].status)
                   else Cancelled
    {
      if id !in orders { return NotFound; }
      var order := orders[id];
      if order.IsTerminal() { return AlreadyTerminal(order.status); }
      orders := orders[id := order.(status := Canceled)];
      return Cancelled;
    }

    method UpdateMarketPrice(symbol: string, price: real)
      requires !crashed
      modifies this
      ensures Value() == Step(old(Value()), Price(symbol, price))
    {
      lastPrices := lastPrices[symbol := price];
      if symbol in positions && !positions[symbol].IsFlat() {
        var p := positions[symbol];
        positions := positions[symbol := p.(currentPrice := price, unrealizedPnL := UnrealizedPnL(p, price))];
      }
    }

    method Reset(initialBalance: real)
      requires !crashed
      modifies this
      ensures Value() == Opened(initialBalance, old(pending))
    {
      orders, positions, balance, lastPrices := map[], map[], initialBalance, map[];
    }

    /** The delayed fill; `cancelled` says that its context ended before the delay did. */
    method SimulateFill(id: string, cancelled: bool, at: int)
      requires !crashed && id in pending
      modifies this
      ensures Value() == Step(old(Value()), if cancelled then FillDropped(id) else FillDue(id, at))
    {
      pending := pending - {id};
      if cancelled { return; }
      if id !in orders || orders[id].status != OrderStatus.Submitted { return; }
      FillOrder(id, at);
    }

    /** The rest of the delayed fill, for an order that is still submitted. */
    method FillOrder(id: string, at: int)
      requires !crashed && Fillable(Value(), id)
      modifies this
      ensures Value() == Settle(old(Value()), id, at)
    {
      ghost var before := Value();
      var order := orders[id];
      var marketPrice := order.price;
      if order.symbol in lastPrices { marketPrice := lastPrices[order.symbol]; }
      var fillPrice := ApplySlippage(order.side, marketPrice);
      assert fillPrice == FillPrice(before, order);
      var notional := Notional(order.quantity, fillPrice);
      var commission := Commission(notional);
      var required := notional + commission;
      if order.side == Buy && balance < required {
        orders := orders[id := order.(status := Rejected)];
        return;
      }
      assert Affordable(before, order);
      order := order.(status := OrderStatus.Filled, filledQty := order.quantity, remainingQty := 0.0,
                      avgFillPrice := fillPrice, filledAt := Some(at));
      orders := orders[id := order];
      if order.side == Buy {
        balance := balance - required;
      } else {
        balance := balance + (notional - commission);
      }
      ApplyFilled(PositionOf(before, order.symbol), before.orders[id], fillPrice, at);
      UpdatePosition(order, fillPrice, commission);
    }

    /** Reduces or closes, for an order on the other side. */
    method UpdatePosition(order: Order, fillPrice: real, commission: real)
      requires !crashed && commission == Commission(Notional(order.quantity, fillPrice))
      modifies this`positions, this`crashed
      ensures var p := if order.symbol in old(positions) then Some(old(positions)[order.symbol]) else None;
              match Apply(p, order, fillPrice)
              case Some(q) => !crashed && positions == old(positions)[order.symbol := q]
              case None => crashed && positions == old(positions)
    {
      if order.symbol !in positions {
        var side := if order.side == Sell then Short else Long;
        positions := positions[order.symbol := Position(side, order.quantity, fillPrice, fillPrice, 0.0, -commission)];
        return;
      }
      var p := positions[order.symbol];
      if (order.side == Buy && p.side == Long) || (order.side == Sell && p.side == Short) {
        var totalCost := Notional(p.quantity, p.entryPrice) + Notional(order.quantity, fillPrice);
        var totalQty := p.quantity + order.quantity;
        if totalQty == 0.0 {
          crashed := true;
          return;
        }
        p := p.(entryPrice := Quotient(totalCost, totalQty), quantity := totalQty, realizedPnL := p.realizedPnL - commission,
                currentPrice := fillPrice);
      } else {
        var pnl := RealizedPnL(p, fillPrice, order.quantity);
        p := p.(realizedPnL := p.realizedPnL + pnl - commission, currentPrice := fillPrice);
        if order.quantity >= p.quantity {
          p := p.(quantity := 0.0, unrealizedPnL := 0.0);
        } else {
          p := p.(quantity := p.quantity - order.quantity);
        }
      }
      positions := positions[order.symbol := p];
    }
  }

  /** A fill moves the position by the side and quantity of the order alone. */
  lemma ApplyFilled(p: Option<Position>, o: Order, price: real, at: int)
    ensures Apply(p, PaperLedger.Filled(o, price, at), price) == Apply(p, o, price)
  {
  }
}
