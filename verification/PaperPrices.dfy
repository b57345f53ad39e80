/**
  What the paper simulator's orders and positions say, told from the events alone: at what
  price an order was filled, why it was not, and at what price a position was last marked.
*/
module PaperPrices {
  import opened Entities
  import opened Sums
  import opened PaperLedger

  lemma {:induction false} RunSnoc(s: Ledger, es: seq<Event>)
    requires es != []
    ensures Run(s, es) == Step(Run(s, es[..|es| - 1]), es[|es| - 1])
    decreases |es|
  {
    var n := |es| - 1;
    if n > 0 {
      assert es[..n][0] == es[0] && es[..n][1..] == es[1..][..n - 1];
      RunSnoc(Step(s, es[0]), es[1..]);
    }
  }

  /** The last price heard for the symbol, or the order's own if there was none. */
  function Reference(es: seq<Event>, symbol: string, own: real): real {
    if es == [] then own
    else
      var e := es[|es| - 1];
      if e.Price? && e.symbol == symbol then e.price else Reference(es[..|es| - 1], symbol, own)
  }

  /** Five hundredths of a percent against the trader. */
  function Slipped(side: OrderSide, reference: real): real {
    if side == Buy then reference * 1.0005 else reference * 0.9995
  }

  /** What a purchase takes from the balance, with six hundredths of a percent of commission. */
  function PurchaseCost(quantity: real, price: real): real { quantity * price * 1.0006 }

  ghost predicate SubmittedAt(start: Ledger, es: seq<Event>, j: nat, id: string) {
    j < |es| && es[j].Submit? && es[j].id == id && Enabled(Run(start, es[..j]), es[j])
  }

  /** The delayed fill at `k` of the order submitted at `j` went through at the reference price, or was too dear. */
  ghost predicate FilledAt(start: Ledger, es: seq<Event>, j: nat, k: nat, id: string, o: Order) {
    && j < k < |es| && SubmittedAt(start, es, j, id) && es[k].FillDue? && es[k].id == id
    && var s := es[j].order;
    var price := Slipped(s.side, Reference(es[..k], s.symbol, s.price));
    && o == s.(exchangeOrderId := id, status := OrderStatus.Filled, filledQty := s.quantity, remainingQty := 0.0,
               avgFillPrice := price, filledAt := Some(es[k].at))
    && (s.side == Buy ==> Run(start, es[..k]).balance >= PurchaseCost(s.quantity, price))
  }

  ghost predicate RejectedAt(start: Ledger, es: seq<Event>, j: nat, k: nat, id: string, o: Order) {
    && j < k < |es| && SubmittedAt(start, es, j, id) && es[k].FillDue? && es[k].id == id
    && var s := es[j].order;
    && o == s.(exchangeOrderId := id, status := Rejected)
    && s.side == Buy
    && Run(start, es[..k]).balance < PurchaseCost(s.quantity, Slipped(Buy, Reference(es[..k], s.symbol, s.price)))
  }

  ghost predicate CancelledAt(start: Ledger, es: seq<Event>, j: nat, k: nat, id: string, o: Order) {
    && j < k < |es| && SubmittedAt(start, es, j, id) && es[k] == Cancel(id)
    && o == es[j].order.(exchangeOrderId := id, status := Canceled)
  }

  ghost predicate StillSubmitted(start: Ledger, es: seq<Event>, j: nat, id: string, o: Order) {
    SubmittedAt(start, es, j, id) && o == es[j].order.(exchangeOrderId := id, status := OrderStatus.Submitted)
  }

  ghost predicate OrderTold(start: Ledger, es: seq<Event>, id: string, o: Order) {
    || (exists j: nat :: StillSubmitted(start, es, j, id, o))
    || (exists j: nat, k: nat :: FilledAt(start, es, j, k, id, o))
    || (exists j: nat, k: nat :: RejectedAt(start, es, j, k, id, o))
    || (exists j: nat, k: nat :: CancelledAt(start, es, j, k, id, o))
  }

  /* ---------- More events ---------- */

  lemma SubmittedMore(start: Ledger, es: seq<Event>, e: Event, j: nat, id: string)
    requires SubmittedAt(start, es, j, id)
    ensures SubmittedAt(start, es + [e], j, id) && (es + [e])[j] == es[j]
  {
    assert (es + [e])[..j] == es[..j];
  }

  lemma OrderMore(start: Ledger, es: seq<Event>, e: Event, id: string, o: Order)
    requires OrderTold(start, es, id, o)
    ensures OrderTold(start, es + [e], id, o)
  {
    if j: nat :| StillSubmitted(start, es, j, id, o) {
      SubmittedMore(start, es, e, j, id);
      assert StillSubmitted(start, es + [e], j, id, o);
    } else if j: nat, k: nat :| FilledAt(start, es, j, k, id, o) {
      SubmittedMore(start, es, e, j, id);
      assert (es + [e])[..k] == es[..k];
      assert FilledAt(start, es + [e], j, k, id, o);
    } else if j: nat, k: nat :| RejectedAt(start, es, j, k, id, o) {
      SubmittedMore(start, es, e, j, id);
      assert (es + [e])[..k] == es[..k];
      assert RejectedAt(start, es + [e], j, k, id, o);
    } else if j: nat, k: nat :| CancelledAt(start, es, j, k, id, o) {
      SubmittedMore(start, es, e, j, id);
      assert CancelledAt(start, es + [e], j, k, id, o);
    }
  }

  /* ---------- One event ---------- */

  lemma StepPrices(s: Ledger, e: Event)
    requires !Step(s, e).crashed
    ensures !s.crashed
    ensures Step(s, e).lastPrices == if e.Price? then s.lastPrices[e.symbol := e.price] else s.lastPrices
  {
  }

  /** The simulator's last prices are those heard, as long as it runs. */
  lemma {:induction false} LastPricesAre(start: Ledger, es: seq<Event>, symbol: string, own: real)
    requires start.lastPrices == map[] && !Run(start, es).crashed
    ensures var m := Run(start, es).lastPrices;
            (if symbol in m then m[symbol] else own) == Reference(es, symbol, own)
  {
    if es != [] {
      RunSnoc(start, es);
      StepPrices(Run(start, es[..|es| - 1]), es[|es| - 1]);
      LastPricesAre(start, es[..|es| - 1], symbol, own);
    }
  }

  lemma FillPriceIs(start: Ledger, es: seq<Event>, o: Order)
    requires start.lastPrices == map[] && !Run(start, es).crashed
    ensures FillPrice(Run(start, es), o) == Slipped(o.side, Reference(es, o.symbol, o.price))
  {
    LastPricesAre(start, es, o.symbol, o.price);
  }

  lemma CostIs(quantity: real, price: real)
    ensures Notional(quantity, price) + Commission(Notional(quantity, price)) == PurchaseCost(quantity, price)
  {
  }

  /** The step by which an order is settled. */
  lemma SettleTold(start: Ledger, es: seq<Event>, e: Event, j: nat)
    requires start.lastPrices == map[] && e.FillDue?
    requires var s := Run(start, es); Enabled(s, e) && Fillable(s, e.id) && StillSubmitted(start, es, j, e.id, s.orders[e.id])
    ensures e.id in Step(Run(start, es), e).orders && OrderTold(start, es + [e], e.id, Step(Run(start, es), e).orders[e.id])
  {
    var s := Run(start, es);
    var o, x := s.orders[e.id], Step(s, e).orders[e.id];
    SubmittedMore(start, es, e, j, e.id);
    assert (es + [e])[..|es|] == es;
    FillPriceIs(start, es, o);
    CostIs(o.quantity, FillPrice(s, o));
    assert FilledAt(start, es + [e], j, |es|, e.id, x) || RejectedAt(start, es + [e], j, |es|, e.id, x);
  }

  lemma StepTold(start: Ledger, es: seq<Event>, e: Event, id: string)
    requires start.lastPrices == map[] && id in Step(Run(start, es), e).orders
    requires id in Run(start, es).orders ==> OrderTold(start, es, id, Run(start, es).orders[id])
    ensures OrderTold(start, es + [e], id, Step(Run(start, es), e).orders[id])
  {
    var s, x := Run(start, es), Step(Run(start, es), e);
    assert (es + [e])[..|es|] == es;
    if id !in s.orders {
      assert StillSubmitted(start, es + [e], |es|, id, x.orders[id]);
    } else if x.orders[id] == s.orders[id] {
      OrderMore(start, es, e, id, s.orders[id]);
    } else {
      assert s.orders[id].status == OrderStatus.Submitted;
      var j: nat :| StillSubmitted(start, es, j, id, s.orders[id]);
      if e.FillDue? {
        SettleTold(start, es, e, j);
      } else {
        SubmittedMore(start, es, e, j, id);
        assert CancelledAt(start, es + [e], j, |es|, id, x.orders[id]);
      }
    }
  }

  lemma {:induction false} RunTold(start: Ledger, es: seq<Event>, id: string)
    requires start.lastPrices == map[] && start.orders == map[] && id in Run(start, es).orders
    ensures OrderTold(start, es, id, Run(start, es).orders[id])
    decreases |es|
  {
    if es != [] {
      var front, e := es[..|es| - 1], es[|es| - 1];
      RunSnoc(start, es);
      if id in Run(start, front).orders { RunTold(start, front, id); }
      StepTold(start, front, e, id);
      assert es == front + [e];
    }
  }

  /**
    In every run each order is the one submitted under its id, and is still submitted; or was
    filled whole, at the last price heard for its symbol before the fill - its own price if
    there was none - moved by 5/10000 against the trader, with cash for it and for a commission
    of 6/10000; or was a purchase without such cash, and is rejected; or was cancelled.
   */
  lemma OrdersTellTheEvents(initial: real, pending: set<string>, es: seq<Event>, id: string)
    requires id in Run(Opened(initial, pending), es).orders
    ensures OrderTold(Opened(initial, pending), es, id, Run(Opened(initial, pending), es).orders[id])
  {
    RunTold(Opened(initial, pending), es, id);
  }

  /* ---------- How often a delayed fill runs ---------- */

  /** The delayed fill has run, or was dropped with its context. */
  predicate EndsFill(e: Event, id: string) { (e.FillDue? || e.FillDropped?) && e.id == id }

  /** Left over from before the run, or submitted in it, and not ended since. */
  ghost predicate FillAhead(start: Ledger, es: seq<Event>, id: string) {
    || (id in start.pending && forall k :: 0 <= k < |es| ==> !EndsFill(es[k], id))
    || exists j: nat :: AheadSince(start, es, j, id)
  }

  lemma StepPending(s: Ledger, e: Event, id: string)
    requires !s.crashed
    ensures id in Step(s, e).pending <==>
            (id in s.pending && !EndsFill(e, id)) || (e.Submit? && e.id == id && Enabled(s, e))
  {
  }

  /** Submitted at this place, and not ended since. */
  ghost predicate AheadSince(start: Ledger, es: seq<Event>, j: nat, id: string) {
    SubmittedAt(start, es, j, id) && forall k :: j < k < |es| ==> !EndsFill(es[k], id)
  }

  lemma AheadFront(start: Ledger, es: seq<Event>, j: nat, id: string)
    requires es != [] && j < |es| - 1
    ensures AheadSince(start, es, j, id) <==> AheadSince(start, es[..|es| - 1], j, id) && !EndsFill(es[|es| - 1], id)
  {
    var n := |es| - 1;
    assert es[..n][..j] == es[..j];
    if AheadSince(start, es, j, id) { assert !EndsFill(es[n], id); }
  }

  lemma FillAheadSnoc(start: Ledger, es: seq<Event>, id: string)
    requires es != []
    ensures var n := |es| - 1;
            FillAhead(start, es, id) <==> (FillAhead(start, es[..n], id) && !EndsFill(es[n], id)) || SubmittedAt(start, es, n, id)
  {
    var n := |es| - 1;
    forall j: nat | j < n ensures AheadSince(start, es, j, id) <==> AheadSince(start, es[..n], j, id) && !EndsFill(es[n], id) {
      AheadFront(start, es, j, id);
    }
    assert SubmittedAt(start, es, n, id) ==> AheadSince(start, es, n, id);
  }

  /** A delayed fill is waiting exactly when it was left over or its order submitted, and it has neither run nor been dropped. */
  lemma {:induction false} PendingTellsTheEvents(start: Ledger, es: seq<Event>, id: string)
    requires !Run(start, es).crashed
    ensures id in Run(start, es).pending <==> FillAhead(start, es, id)
    decreases |es|
  {
    if es != [] {
      var n := |es| - 1;
      RunSnoc(start, es);
      PendingTellsTheEvents(start, es[..n], id);
      StepPending(Run(start, es[..n]), es[n], id);
      FillAheadSnoc(start, es, id);
    }
  }

  /* ---------- At what price a position was last touched ---------- */

  /** The last fill of an order for the symbol, or the last price heard while the position was open. */
  datatype Touch = Untouched | FilledFor(price: real) | MarkedTo(price: real)

  ghost function LastTouch(start: Ledger, es: seq<Event>, symbol: string): Touch {
    if es == [] then Untouched
    else
      var front, e := es[..|es| - 1], es[|es| - 1];
      var s := Run(start, front);
      if e.Price? && e.symbol == symbol && !s.crashed && symbol in s.positions
         && s.positions[symbol].quantity != 0.0 && s.positions[symbol].side != Flat then MarkedTo(e.price)
      else if Fills(s, e) && s.orders[e.id].symbol == symbol then
        FilledFor(Slipped(s.orders[e.id].side, Reference(front, symbol, s.orders[e.id].price)))
      else LastTouch(start, front, symbol)
  }

  ghost predicate TouchTold(p: Position, touch: Touch) {
    match touch
    case Untouched => false
    case FilledFor(price) => p.currentPrice == price && (p.quantity == 0.0 ==> p.unrealizedPnL == 0.0)
    case MarkedTo(price) =>
      && p.currentPrice == price
      && p.unrealizedPnL == if p.side == Long then (price - p.entryPrice) * p.quantity else (p.entryPrice - price) * p.quantity
  }

  /** A fill leaves its price on the position; one that closes it, or opens it with nothing, no unrealized profit. */
  lemma FillTouches(p: Option<Position>, o: Order, price: real)
    requires Apply(p, o, price).Some?
    ensures Apply(p, o, price).value.currentPrice == price
    ensures p.None? || !Extends(p.value, o.side) ==>
              (Apply(p, o, price).value.quantity == 0.0 ==> Apply(p, o, price).value.unrealizedPnL == 0.0)
  {
  }

  /** What a step does to the position of one symbol. */
  lemma StepTouches(s: Ledger, e: Event, symbol: string)
    requires !Step(s, e).crashed
    ensures PositionOf(Step(s, e), symbol) ==
            if e.Price? && e.symbol == symbol && symbol in s.positions && !s.positions[symbol].IsFlat() then
              Some(s.positions[symbol].(currentPrice := e.price, unrealizedPnL := UnrealizedPnL(s.positions[symbol], e.price)))
            else if Fills(s, e) && s.orders[e.id].symbol == symbol then
              Apply(PositionOf(s, symbol), s.orders[e.id], FillPrice(s, s.orders[e.id]))
            else PositionOf(s, symbol)
  {
  }

  lemma {:induction false} RunTouched(start: Ledger, es: seq<Event>, symbol: string)
    requires start.lastPrices == map[] && start.positions == map[] && !Run(start, es).crashed
    requires symbol in Run(start, es).positions
    ensures TouchTold(Run(start, es).positions[symbol], LastTouch(start, es, symbol))
    decreases |es|
  {
    if es != [] {
      var front, e := es[..|es| - 1], es[|es| - 1];
      var s := Run(start, front);
      RunSnoc(start, es);
      StepTouches(s, e, symbol);
      if symbol in s.positions { RunTouched(start, front, symbol); }
      if Fills(s, e) && s.orders[e.id].symbol == symbol {
        FillPriceIs(start, front, s.orders[e.id]);
        FillTouches(PositionOf(s, symbol), s.orders[e.id], FillPrice(s, s.orders[e.id]));
      }
    }
  }

  /**
    In every run that does not crash, a position shows the price of the last fill of its symbol,
    or the last price heard since while it was open, and in the second case the profit at that
    price; one that a fill has closed shows none.
   */
  lemma PositionsTellTheEvents(initial: real, pending: set<string>, es: seq<Event>, symbol: string)
    requires !Run(Opened(initial, pending), es).crashed && symbol in Run(Opened(initial, pending), es).positions
    ensures TouchTold(Run(Opened(initial, pending), es).positions[symbol], LastTouch(Opened(initial, pending), es, symbol))
  {
    RunTouched(Opened(initial, pending), es, symbol);
  }

  /** Every position is closed, or was last touched by a price. */
  ghost predicate AllMarked(start: Ledger, es: seq<Event>) {
    forall k :: k in Run(start, es).positions ==>
      Run(start, es).positions[k].quantity == 0.0 || LastTouch(start, es, k).MarkedTo?
  }

  /** So once a price has been heard for every open position, equity at market is the initial balance plus total profit. */
  lemma EquityOnceMarked(initial: real, pending: set<string>, es: seq<Event>)
    requires NeverOverCloses(Opened(initial, pending), es) && !Run(Opened(initial, pending), es).crashed
    requires AllMarked(Opened(initial, pending), es)
    ensures var s := Run(Opened(initial, pending), es);
            s.balance + Sum(s.positions, MarketValue)
            == initial + Sum(s.positions, Realized) + Sum(s.positions, Unrealized)
  {
    var s := Run(Opened(initial, pending), es);
    forall k | k in s.positions ensures s.positions[k].unrealizedPnL == UnrealizedPnL(s.positions[k], s.positions[k].currentPrice) {
      PositionsTellTheEvents(initial, pending, es, k);
    }
    MarkedEquity(initial, pending, es);
  }
}
