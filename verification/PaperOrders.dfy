/** What every run of the paper simulator keeps about its orders and its cash. */
module PaperOrders {
  import opened Entities
  import opened Sums
  import opened PaperLedger

  /**
    An order's effect on the balance: nothing until it is filled, then its notional with six
    hundredths of a percent of commission on top, or taken off.
   */
  function OrderCash(o: Order): real {
    if o.status != OrderStatus.Filled then 0.0
    else if o.side == Buy then -(o.quantity * o.avgFillPrice * 1.0006)
    else o.quantity * o.avgFillPrice * 0.9994
  }

  ghost predicate Booked(initial: real, s: Ledger) { s.balance == initial + Sum(s.orders, OrderCash) }

  lemma FlowIs(o: Order, price: real, at: int)
    ensures CashFlow(o.side, Notional(o.quantity, price)) == OrderCash(PaperLedger.Filled(o, price, at))
  {
  }

  lemma SettleBooked(initial: real, s: Ledger, id: string, at: int)
    requires Booked(initial, s) && Fillable(s, id)
    ensures Booked(initial, Settle(s, id, at))
  {
    var o := s.orders[id];
    FlowIs(o, FillPrice(s, o), at);
    SumUpdate(s.orders, OrderCash, id, Settle(s, id, at).orders[id]);
  }

  lemma StepBooked(initial: real, s: Ledger, e: Event)
    requires Booked(initial, s)
    ensures Booked(initial, Step(s, e))
  {
    if Enabled(s, e) {
      match e
      case Submit(id, o) => SumUpdate(s.orders, OrderCash, id, PaperLedger.Submitted(id, o));
      case Cancel(id) =>
        if id in s.orders && !s.orders[id].IsTerminal() {
          SumUpdate(s.orders, OrderCash, id, s.orders[id].(status := Canceled));
        }
      case FillDue(id, at) =>
        if Fillable(s, id) { SettleBooked(initial, s.(pending := s.pending - {id}), id, at); }
      case _ =>
    }
  }

  lemma {:induction false} RunBooked(initial: real, s: Ledger, es: seq<Event>)
    requires Booked(initial, s)
    ensures Booked(initial, Run(s, es))
    decreases |es|
  {
    if es != [] {
      StepBooked(initial, s, es[0]);
      RunBooked(initial, Step(s, es[0]), es[1..]);
    }
  }

  /** In every run the balance is the initial one plus the cash flows of the filled orders, each once. */
  lemma BalanceIsFoldOfFills(initial: real, pending: set<string>, es: seq<Event>)
    ensures var s := Run(Opened(initial, pending), es);
            s.balance == initial + Sum(s.orders, OrderCash)
  {
    RunBooked(initial, Opened(initial, pending), es);
  }

  /** Cash moves only in the step that fills one submitted order, and by that order's flow. */
  lemma CashMovesOnlyWithAFill(s: Ledger, e: Event)
    requires Step(s, e).balance != s.balance
    ensures e.FillDue? && Fillable(s, e.id) && Affordable(s, s.orders[e.id])
    ensures var t := Step(s, e);
            && t.orders[e.id].status == OrderStatus.Filled
            && t.orders[e.id].filledQty == s.orders[e.id].quantity && t.orders[e.id].remainingQty == 0.0
            && t.balance == s.balance + OrderCash(t.orders[e.id])
            && forall id :: id in s.orders && id != e.id ==> id in t.orders && t.orders[id] == s.orders[id]
  {}

  /** A filled, cancelled or rejected order is the same record for the rest of the run. */
  lemma {:induction false} TerminalForGood(s: Ledger, es: seq<Event>, id: string)
    requires id in s.orders && s.orders[id].IsTerminal()
    ensures id in Run(s, es).orders && Run(s, es).orders[id] == s.orders[id]
    decreases |es|
  {
    if es != [] { TerminalForGood(Step(s, es[0]), es[1..], id); }
  }

  /** The only moves an order makes: submitted to cancelled, filled or rejected. */
  lemma Lifecycle(s: Ledger, e: Event, id: string)
    requires id in s.orders && s.orders[id].status == OrderStatus.Submitted
    ensures id in Step(s, e).orders
    ensures var o := Step(s, e).orders[id];
            || o == s.orders[id]
            || (e == Cancel(id) && o == s.orders[id].(status := Canceled))
            || (e.FillDue? && e.id == id && o == s.orders[id].(status := Rejected)
                && o.side == Buy && s.balance + CashFlow(Buy, Notional(o.quantity, FillPrice(s, o))) < 0.0)
            || (e.FillDue? && e.id == id && o == PaperLedger.Filled(s.orders[id], FillPrice(s, s.orders[id]), e.at))
  {}

  /** Quantities and prices that are not negative, in the order book and in the event. */
  ghost predicate Sane(s: Ledger) {
    && s.balance >= 0.0
    && (forall id :: id in s.orders ==> s.orders[id].quantity >= 0.0 && s.orders[id].price >= 0.0)
    && (forall k :: k in s.lastPrices ==> s.lastPrices[k] >= 0.0)
  }

  predicate SaneEvent(e: Event) {
    && (e.Submit? ==> e.order.quantity >= 0.0 && e.order.price >= 0.0)
    && (e.Price? ==> e.price >= 0.0)
  }

  lemma StepSane(s: Ledger, e: Event)
    requires Sane(s) && SaneEvent(e)
    ensures Sane(Step(s, e))
  {
    if Fills(s, e) {
      var t := s.(pending := s.pending - {e.id});
      var o := t.orders[e.id];
      assert CashFlow(Sell, Notional(o.quantity, FillPrice(t, o))) >= 0.0;
      assert Sane(Settle(t, e.id, e.at));
    }
  }

  /** From a balance that is not negative, sane prices and quantities never make it so. */
  lemma {:induction false} NeverOverdrawn(s: Ledger, es: seq<Event>)
    requires Sane(s) && forall i :: 0 <= i < |es| ==> SaneEvent(es[i])
    ensures Sane(Run(s, es))
    decreases |es|
  {
    if es != [] {
      StepSane(s, es[0]);
      NeverOverdrawn(Step(s, es[0]), es[1..]);
    }
  }

  /** Orders for positive quantities cannot make the averaging step divide by zero. */
  ghost predicate Positive(s: Ledger) {
    && !s.crashed
    && (forall id :: id in s.orders ==> s.orders[id].quantity > 0.0)
    && (forall k :: k in s.positions ==> s.positions[k].quantity >= 0.0)
  }

  lemma {:induction false} PositiveOrdersNeverCrash(s: Ledger, es: seq<Event>)
    requires Positive(s) && forall i :: 0 <= i < |es| ==> es[i].Submit? ==> es[i].order.quantity > 0.0
    ensures Positive(Run(s, es))
    decreases |es|
  {
    if es != [] {
      PositiveOrdersNeverCrash(Step(s, es[0]), es[1..]);
    }
  }

  /** An order for nothing does crash it, once the position it would extend has been closed. */
  lemma EmptyOrderCrashes(s: Ledger, id: string, at: int)
    requires Fills(s, FillDue(id, at))
    ensures Step(s, FillDue(id, at)).crashed <==>
            var o := s.orders[id];
            o.symbol in s.positions && Extends(s.positions[o.symbol], o.side)
            && s.positions[o.symbol].quantity == -o.quantity
  {}
}
